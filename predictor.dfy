/**
 * The match predictor (`LolPredictor` in models/predictor.py): it turns a
 * match description (patch, region, two teams with a player and a champion per
 * role) into the feature row its classifiers were trained on, and reads the
 * classifier's probability of a Blue win as a predicted winner.
 *
 * The loaded artifacts are values here: label encoders are their class lists,
 * one-hot encoders a table from category to its feature vector, the Elo table
 * a map from team code to rating, the historical dataset a sequence of rows
 * (column name to number), and each classifier a function from the reindexed
 * feature row to the probability of a Blue win.
 */
module Predictor {
  import opened Wrappers
  import opened Text
  import opened Sorting

  // ---------------------------------------------------------------------
  // Roles, sides and the names of the columns
  // ---------------------------------------------------------------------

  datatype Role = Top | Jungle | Mid | Adc | Support

  function RoleName(r: Role): string {
    match r
    case Top => "TOP"
    case Jungle => "JUNGLE"
    case Mid => "MID"
    case Adc => "ADC"
    case Support => "SUPPORT"
  }

  const Roles: seq<Role> := [Top, Jungle, Mid, Adc, Support]

  lemma EveryRoleListed(r: Role)
    ensures r in Roles
  {
    match r
    case Top => assert Roles[0] == r;
    case Jungle => assert Roles[1] == r;
    case Mid => assert Roles[2] == r;
    case Adc => assert Roles[3] == r;
    case Support => assert Roles[4] == r;
  }

  datatype Color = Blue | Red

  function ColorName(c: Color): string {
    if c == Blue then "blue" else "red"
  }

  const Colors: seq<Color> := [Blue, Red]

  /** The six per-player statistics whose history is averaged. */
  datatype Stat = Kills | Deaths | Assists | KillParticipation | DamageShare | GoldDiffAt15

  /** The name of a statistic in column and feature names. */
  function StatName(s: Stat): string {
    match s
    case Kills => "kills"
    case Deaths => "deaths"
    case Assists => "assists"
    case KillParticipation => "kp%"
    case DamageShare => "dmg%"
    case GoldDiffAt15 => "gd@15"
  }

  /** The statistics in the order `get_player_historical_stats` walks them. */
  const Stats: seq<Stat> := [Kills, Deaths, Assists, KillParticipation, DamageShare, GoldDiffAt15]

  function Prefix(c: Color, r: Role): string {
    ColorName(c) + "_" + RoleName(r) + "_"
  }

  /** The column (and feature) holding the encoded player of a side and role. */
  function PlayerKey(c: Color, r: Role): string { Prefix(c, r) + "player" }

  function ChampionKey(c: Color, r: Role): string { Prefix(c, r) + "champion" }

  /** The dataset column holding one statistic of a side and role. */
  function StatColumn(c: Color, r: Role, stat: Stat): string { Prefix(c, r) + StatName(stat) }

  function HistoryKey(c: Color, r: Role, stat: Stat): string { Prefix(c, r) + ("historical_avg_" + StatName(stat)) }

  function TeamKey(c: Color): string { ColorName(c) + "_Team" }

  function EloKey(c: Color): string { ColorName(c) + "_team_elo_rating" }

  /** One value per role. */
  datatype PerRole<T> = PerRole(top: T, jungle: T, mid: T, adc: T, support: T) {
    function Get(r: Role): T {
      match r
      case Top => top
      case Jungle => jungle
      case Mid => mid
      case Adc => adc
      case Support => support
    }
  }

  // ---------------------------------------------------------------------
  // Encoders
  // ---------------------------------------------------------------------

  /** A label encoder: the code of a label is its index among the classes. */
  datatype Encoder = Encoder(classes: seq<string>)

  predicate Distinct(xs: seq<string>) {
    forall i, j :: 0 <= i < j < |xs| ==> xs[i] != xs[j]
  }

  /** `transform([label])[0]`: the code of a known label; an unseen label is an error. */
  function Transform(e: Encoder, name: string): (r: Result<nat, string>)
    ensures r.Success? <==> name in e.classes
    ensures r.Success? ==> r.value < |e.classes| && e.classes[r.value] == name
    decreases |e.classes|
  {
    if e.classes == [] then Failure("unseen label: " + name)
    else if e.classes[0] == name then Success(0)
    else
      var r := Transform(Encoder(e.classes[1..]), name);
      if r.Success? then Success(r.value + 1) else r
  }

  /** `inverse_transform([code])[0]`: the label of a whole-number code in range. */
  function Decode(e: Encoder, code: real): Option<string> {
    if code == code.Floor as real && 0 <= code.Floor < |e.classes| then Some(e.classes[code.Floor]) else None
  }

  /** Decoding the code of a known label gives the label back. */
  lemma DecodeTransform(e: Encoder, name: string)
    requires name in e.classes
    ensures Decode(e, Transform(e, name).value as real) == Some(name)
  {
  }

  /** With distinct classes, every decodable code is the code of its label. */
  lemma TransformDecode(e: Encoder, code: real)
    requires Distinct(e.classes) && Decode(e, code).Some?
    ensures Transform(e, Decode(e, code).value) == Success(code.Floor as nat)
  {
    var k := Transform(e, Decode(e, code).value).value;
    assert e.classes[k] == e.classes[code.Floor];
  }

  /** A one-hot encoder: its feature names and, per known category, its feature vector. */
  datatype OneHot = OneHot(features: seq<string>, table: map<string, seq<real>>)

  predicate OneHotValid(e: OneHot) {
    forall v :: v in e.table.Values ==> |v| == |e.features|
  }

  /** `transform` of one category: its feature vector; an unknown category is an error. */
  function OneHotRow(e: OneHot, category: string): Result<seq<real>, string> {
    if category in e.table then Success(e.table[category]) else Failure("unknown category: " + category)
  }

  // ---------------------------------------------------------------------
  // The historical dataset and the per-player averages
  // ---------------------------------------------------------------------

  type Row = map<string, real>

  /** The historical dataset: its column names and its rows. */
  datatype Frame = Frame(columns: seq<string>, rows: seq<Row>)

  /**
   * The value of column `col` in a row. Every row of the dataset the
   * predictor loads has every column it reads; a cell of an absent column
   * reads as 0.0.
   */
  function Cell(row: Row, col: string): real {
    if col in row then row[col] else 0.0
  }

  function Sum(xs: seq<real>): real {
    if xs == [] then 0.0 else Sum(xs[..|xs| - 1]) + xs[|xs| - 1]
  }

  /** Arithmetic mean (pandas `mean`, `sum(...) / len(...)`). */
  function Mean(xs: seq<real>): real
    requires xs != []
  {
    Sum(xs) / (|xs| as real)
  }

  lemma {:induction false} SumWithin(xs: seq<real>, lo: real, hi: real)
    requires forall i :: 0 <= i < |xs| ==> lo <= xs[i] <= hi
    ensures (|xs| as real) * lo <= Sum(xs) <= (|xs| as real) * hi
  {
    if xs != [] {
      SumWithin(xs[..|xs| - 1], lo, hi);
    }
  }

  /** A mean lies between any bounds of the values. */
  lemma MeanWithin(xs: seq<real>, lo: real, hi: real)
    requires xs != []
    requires forall i :: 0 <= i < |xs| ==> lo <= xs[i] <= hi
    ensures lo <= Mean(xs) <= hi
  {
    SumWithin(xs, lo, hi);
    var n := |xs| as real;
    assert Mean(xs) * n == Sum(xs);
  }

  /** The rows whose `col` holds `code`, in dataset order (a pandas boolean filter). */
  function Matching(rows: seq<Row>, col: string, code: real): (r: seq<Row>)
    ensures forall row :: row in r <==> row in rows && Cell(row, col) == code
  {
    if rows == [] then []
    else
      var last := rows[|rows| - 1];
      assert rows == rows[..|rows| - 1] + [last];
      assert forall row :: row in rows <==> row in rows[..|rows| - 1] || row == last;
      Matching(rows[..|rows| - 1], col, code) + (if Cell(last, col) == code then [last] else [])
  }

  /** A row passing the filter is kept as often as the dataset holds it; any other row is dropped. */
  lemma {:induction false} MatchingCounts(rows: seq<Row>, col: string, code: real)
    ensures forall row :: multiset(Matching(rows, col, code))[row] == if Cell(row, col) == code then multiset(rows)[row] else 0
  {
    if rows != [] {
      var last := rows[|rows| - 1];
      assert rows == rows[..|rows| - 1] + [last];
      MatchingCounts(rows[..|rows| - 1], col, code);
    }
  }

  /** The values of column `col` (`df[col].tolist()`). */
  function Column(rows: seq<Row>, col: string): seq<real> {
    seq(|rows|, i requires 0 <= i < |rows| => Cell(rows[i], col))
  }

  /**
   * The historical average of one statistic for the player encoded as `code`
   * in `role`: the mean over the player's Blue games of the Blue column
   * followed by the player's Red games of the Red column; with no game on
   * either side, the mean of the two whole columns' means.
   */
  function StatAverage(f: Frame, role: Role, code: real, stat: Stat): real
    requires f.rows != []
  {
    var blueGames := Matching(f.rows, PlayerKey(Blue, role), code);
    var redGames := Matching(f.rows, PlayerKey(Red, role), code);
    var values := Column(blueGames, StatColumn(Blue, role, stat)) + Column(redGames, StatColumn(Red, role, stat));
    if values == [] then
      (Mean(Column(f.rows, StatColumn(Blue, role, stat))) + Mean(Column(f.rows, StatColumn(Red, role, stat)))) / 2.0
    else
      Mean(values)
  }

  /** The set of the six statistic names. */
  function StatSet(): set<Stat> {
    set s | s in Stats
  }

  // ---------------------------------------------------------------------
  // The predictor
  // ---------------------------------------------------------------------

  type Probability = p: real | 0.0 <= p <= 1.0

  /** A trained classifier: the probability of a Blue win for a reindexed feature row. */
  type Classifier = seq<(string, real)> -> Probability

  /** The artifacts the predictor loads once and never changes. */
  datatype LolPredictor = LolPredictor(
    championEncoders: PerRole<Encoder>,
    playerEncoders: PerRole<Encoder>,
    teamEncoder: Encoder,
    regionEncoder: OneHot,
    patchEncoder: OneHot,
    teamElos: map<nat, real>,
    featureColumns: seq<string>,
    votingModel: Classifier,
    elasticModel: Classifier,
    history: Frame)

  /** What the loaded artifacts agree on: the dataset has a row, each one-hot vector fits its feature names. */
  predicate Loaded(p: LolPredictor) {
    && p.history.rows != []
    && OneHotValid(p.patchEncoder) && OneHotValid(p.regionEncoder)
  }

  /**
   * `get_player_historical_stats`: the six historical averages of a player
   * in a role, keyed by statistic. The name is lowercased before encoding;
   * a name the role's player encoder does not know is an error.
   */
  function PlayerHistory(p: LolPredictor, name: string, role: Role): Result<map<Stat, real>, string>
    requires p.history.rows != []
  {
    var code :- Transform(p.playerEncoders.Get(role), Lower(name));
    Success(AddAverages(map[], p.history, role, code as real, Stats))
  }

  /**
   * The history of a player is known exactly when their lowercased name is
   * known to the role's encoder; it then holds one average per statistic,
   * each the average `StatAverage` describes for the player's code.
   */
  lemma PlayerHistoryMeaning(p: LolPredictor, name: string, role: Role)
    requires p.history.rows != []
    ensures PlayerHistory(p, name, role).Success? <==> Lower(name) in p.playerEncoders.Get(role).classes
    ensures PlayerHistory(p, name, role).Success? ==>
              var hist := PlayerHistory(p, name, role).value;
              var code := Transform(p.playerEncoders.Get(role), Lower(name)).value as real;
              && hist.Keys == StatSet()
              && forall s :: s in hist ==> hist[s] == StatAverage(p.history, role, code, s)
  {
    var code := Transform(p.playerEncoders.Get(role), Lower(name));
    if code.Success? {
      var c := code.value as real;
      var hist := AddAverages(map[], p.history, role, c, Stats);
      AddAveragesMeaning(map[], p.history, role, c, Stats);
      assert PlayerHistory(p, name, role) == Success(hist);
      assert hist.Keys == StatSet();
      forall s | s in hist
        ensures hist[s] == StatAverage(p.history, role, c, s)
      {
        assert s in Stats;
      }
    }
  }

  /** `acc` with the average of each of `stats` written in, one after the other. */
  function AddAverages(acc: map<Stat, real>, f: Frame, role: Role, code: real, stats: seq<Stat>): map<Stat, real>
    requires f.rows != []
    decreases |stats|
  {
    if stats == [] then acc
    else AddAverages(acc[stats[0] := StatAverage(f, role, code, stats[0])], f, role, code, stats[1..])
  }

  /** Every listed statistic gets its average; every other entry of `acc` is kept. */
  lemma {:induction false} AddAveragesMeaning(acc: map<Stat, real>, f: Frame, role: Role, code: real, stats: seq<Stat>)
    requires f.rows != []
    ensures AddAverages(acc, f, role, code, stats).Keys == acc.Keys + set s | s in stats
    ensures forall s :: s in AddAverages(acc, f, role, code, stats) ==>
              AddAverages(acc, f, role, code, stats)[s] == if s in stats then StatAverage(f, role, code, s) else acc[s]
    decreases |stats|
  {
    if stats != [] {
      assert stats == [stats[0]] + stats[1..];
      AddAveragesMeaning(acc[stats[0] := StatAverage(f, role, code, stats[0])], f, role, code, stats[1..]);
    }
  }

  /** `get_player_historical_stats`, statistic by statistic. */
  method HistoricalStats(p: LolPredictor, name: string, role: Role) returns (r: Result<map<Stat, real>, string>)
    requires p.history.rows != []
    ensures r == PlayerHistory(p, name, role)
  {
    var code :- Transform(p.playerEncoders.Get(role), Lower(name));
    var stats := AverageStats(p.history, role, code as real, Stats);
    r := Success(stats);
  }

  /** The averages of `order`, computed from the player's games found once. */
  method AverageStats(f: Frame, role: Role, code: real, order: seq<Stat>) returns (stats: map<Stat, real>)
    requires f.rows != []
    ensures stats == AddAverages(map[], f, role, code, order)
  {
    var blueGames := Matching(f.rows, PlayerKey(Blue, role), code);
    var redGames := Matching(f.rows, PlayerKey(Red, role), code);
    stats := map[];
    for i := 0 to |order|
      invariant AddAverages(map[], f, role, code, order) == AddAverages(stats, f, role, code, order[i..])
    {
      var avg := AverageStat(f, role, code, blueGames, redGames, order[i]);
      stats := stats[order[i] := avg];
    }
  }

  /**
   * One pass of the per-statistic loop of `get_player_historical_stats`: the
   * average of one statistic from the games `AverageStats` filtered once.
   * `StatAverage` is its specification; this method is only that loop step.
   */
  method AverageStat(f: Frame, role: Role, code: real, blueGames: seq<Row>, redGames: seq<Row>, stat: Stat) returns (avg: real)
    requires f.rows != []
    requires blueGames == Matching(f.rows, PlayerKey(Blue, role), code)
    requires redGames == Matching(f.rows, PlayerKey(Red, role), code)
    ensures avg == StatAverage(f, role, code, stat)
  {
    var values := Column(blueGames, StatColumn(Blue, role, stat)) + Column(redGames, StatColumn(Red, role, stat));
    if |values| == 0 {
      var blueAvg := Mean(Column(f.rows, StatColumn(Blue, role, stat)));
      var redAvg := Mean(Column(f.rows, StatColumn(Red, role, stat)));
      avg := (blueAvg + redAvg) / 2.0;
    } else {
      avg := Mean(values);
    }
  }

  /**
   * A player with no game in the role on either side gets, for each
   * statistic, the mean of the whole Blue column and the whole Red column.
   */
  lemma NoGamesFallback(f: Frame, role: Role, code: real, stat: Stat)
    requires f.rows != []
    requires forall row :: row in f.rows ==> Cell(row, PlayerKey(Blue, role)) != code && Cell(row, PlayerKey(Red, role)) != code
    ensures StatAverage(f, role, code, stat) ==
              (Mean(Column(f.rows, StatColumn(Blue, role, stat))) + Mean(Column(f.rows, StatColumn(Red, role, stat)))) / 2.0
  {
    NoneMatching(f.rows, PlayerKey(Blue, role), code);
    NoneMatching(f.rows, PlayerKey(Red, role), code);
  }

  lemma {:induction false} NoneMatching(rows: seq<Row>, col: string, code: real)
    requires forall row :: row in rows ==> Cell(row, col) != code
    ensures Matching(rows, col, code) == []
  {
    if rows != [] {
      assert rows[|rows| - 1] in rows;
      NoneMatching(rows[..|rows| - 1], col, code);
    }
  }

  /** A player with a game in the role gets the mean over exactly their games, Blue games first. */
  lemma GamesAverage(f: Frame, role: Role, code: real, stat: Stat, k: nat)
    requires f.rows != []
    requires k < |f.rows| && (Cell(f.rows[k], PlayerKey(Blue, role)) == code || Cell(f.rows[k], PlayerKey(Red, role)) == code)
    ensures StatAverage(f, role, code, stat) ==
              Mean(Column(Matching(f.rows, PlayerKey(Blue, role), code), StatColumn(Blue, role, stat))
                   + Column(Matching(f.rows, PlayerKey(Red, role), code), StatColumn(Red, role, stat)))
  {
    var row := f.rows[k];
    assert row in f.rows;
    if Cell(row, PlayerKey(Blue, role)) == code {
      assert row in Matching(f.rows, PlayerKey(Blue, role), code);
    } else {
      assert row in Matching(f.rows, PlayerKey(Red, role), code);
    }
  }

  /** Every value of `col` in the rows lies in [lo, hi]. */
  ghost predicate ColumnWithin(rows: seq<Row>, col: string, lo: real, hi: real) {
    forall row :: row in rows ==> lo <= Cell(row, col) <= hi
  }

  lemma ColumnWithinSeq(rows: seq<Row>, col: string, lo: real, hi: real)
    requires ColumnWithin(rows, col, lo, hi)
    ensures forall i :: 0 <= i < |Column(rows, col)| ==> lo <= Column(rows, col)[i] <= hi
  {
    forall i | 0 <= i < |Column(rows, col)| ensures lo <= Column(rows, col)[i] <= hi {
      assert rows[i] in rows;
    }
  }

  /**
   * A historical average never leaves the range of the statistic in the
   * dataset: when both sides' columns lie in [lo, hi], so does the average,
   * whether it comes from the player's games or from the fallback.
   */
  lemma StatAverageWithin(f: Frame, role: Role, code: real, stat: Stat, lo: real, hi: real)
    requires f.rows != []
    requires ColumnWithin(f.rows, StatColumn(Blue, role, stat), lo, hi)
    requires ColumnWithin(f.rows, StatColumn(Red, role, stat), lo, hi)
    ensures lo <= StatAverage(f, role, code, stat) <= hi
  {
    var blueCol := StatColumn(Blue, role, stat);
    var redCol := StatColumn(Red, role, stat);
    var blueGames := Matching(f.rows, PlayerKey(Blue, role), code);
    var redGames := Matching(f.rows, PlayerKey(Red, role), code);
    var values := Column(blueGames, blueCol) + Column(redGames, redCol);
    if values == [] {
      ColumnWithinSeq(f.rows, blueCol, lo, hi);
      ColumnWithinSeq(f.rows, redCol, lo, hi);
      MeanWithin(Column(f.rows, blueCol), lo, hi);
      MeanWithin(Column(f.rows, redCol), lo, hi);
    } else {
      ColumnWithinSeq(blueGames, blueCol, lo, hi);
      ColumnWithinSeq(redGames, redCol, lo, hi);
      MeanWithin(values, lo, hi);
    }
  }

  /** `get_team_elo`: the final Elo rating of a team, by its lowercased name. */
  function TeamElo(p: LolPredictor, name: string): (r: Result<real, string>)
    ensures r.Success? <==> Lower(name) in p.teamEncoder.classes && Transform(p.teamEncoder, Lower(name)).value in p.teamElos
    ensures r.Success? ==> r.value == p.teamElos[Transform(p.teamEncoder, Lower(name)).value]
  {
    var code :- Transform(p.teamEncoder, Lower(name));
    if code in p.teamElos then Success(p.teamElos[code]) else Failure("no rating for team code")
  }

  // ---------------------------------------------------------------------
  // Feature assembly
  // ---------------------------------------------------------------------

  /** One side of a match: the team and, per role, the player and the champion. */
  datatype TeamInfo = TeamInfo(teamName: string, players: PerRole<string>, champions: PerRole<string>)

  /** `create_match_info`. */
  datatype MatchInfo = MatchInfo(patch: string, region: string, blue: TeamInfo, red: TeamInfo) {
    function Team(c: Color): TeamInfo {
      if c == Blue then blue else red
    }
  }

  /** Writes `vs[i]` under `ks[i]`, in order. */
  function WriteAll(m: map<string, real>, ks: seq<string>, vs: seq<real>): map<string, real>
    requires |ks| == |vs|
    decreases |ks|
  {
    if ks == [] then m else WriteAll(m[ks[0] := vs[0]], ks[1..], vs[1..])
  }

  /** Writes the historical average of each of `stats` under its feature name. */
  function WriteHistory(m: map<string, real>, c: Color, r: Role, hist: map<Stat, real>, stats: seq<Stat>): map<string, real>
    requires forall s :: s in stats ==> s in hist
    decreases |stats|
  {
    if stats == [] then m
    else WriteHistory(m[HistoryKey(c, r, stats[0]) := hist[stats[0]]], c, r, hist, stats[1..])
  }

  /** The features of one role of one side: player code, champion code, six averages. */
  function RoleFeatures(p: LolPredictor, m: map<string, real>, c: Color, team: TeamInfo, role: Role): Result<map<string, real>, string>
    requires p.history.rows != []
  {
    var playerCode :- Transform(p.playerEncoders.Get(role), Lower(team.players.Get(role)));
    var championCode :- Transform(p.championEncoders.Get(role), Lower(team.champions.Get(role)));
    RoleHistory(p, m[PlayerKey(c, role) := playerCode as real][ChampionKey(c, role) := championCode as real],
                c, team.players.Get(role), role)
  }

  /** The player's six historical averages, written under their feature names. */
  function RoleHistory(p: LolPredictor, m: map<string, real>, c: Color, name: string, role: Role): Result<map<string, real>, string>
    requires p.history.rows != []
  {
    PlayerHistoryMeaning(p, name, role);
    var hist :- PlayerHistory(p, name, role);
    Success(WriteHistory(m, c, role, hist, Stats))
  }

  lemma RoleHistoryKeys(p: LolPredictor, m: map<string, real>, c: Color, name: string, role: Role)
    requires p.history.rows != []
    requires RoleHistory(p, m, c, name, role).Success?
    ensures RoleHistory(p, m, c, name, role).value.Keys == m.Keys + HistoryKeys(c, role, Stats)
  {
    PlayerHistoryMeaning(p, name, role);
    WriteHistoryKeys(m, c, role, PlayerHistory(p, name, role).value, Stats);
  }

  /** The features of the given roles of one side, role after role. */
  function RolesFeatures(p: LolPredictor, m: map<string, real>, c: Color, team: TeamInfo, roles: seq<Role>): Result<map<string, real>, string>
    requires p.history.rows != []
    decreases |roles|
  {
    if roles == [] then Success(m)
    else
      var m' :- RoleFeatures(p, m, c, team, roles[0]);
      RolesFeatures(p, m', c, team, roles[1..])
  }

  /** The features of one side: its team code, then its five roles. */
  function SideFeatures(p: LolPredictor, m: map<string, real>, info: MatchInfo, c: Color): Result<map<string, real>, string>
    requires p.history.rows != []
  {
    var teamCode :- Transform(p.teamEncoder, Lower(info.Team(c).teamName));
    RolesFeatures(p, m[TeamKey(c) := teamCode as real], c, info.Team(c), Roles)
  }

  /** The features of the given sides, side after side. */
  function SidesFeatures(p: LolPredictor, m: map<string, real>, info: MatchInfo, colors: seq<Color>): Result<map<string, real>, string>
    requires p.history.rows != []
    decreases |colors|
  {
    if colors == [] then Success(m)
    else
      var m' :- SideFeatures(p, m, info, colors[0]);
      SidesFeatures(p, m', info, colors[1..])
  }

  /** The match-wide features: the patch's one-hot features, the region's (lowercased), both Elo ratings. */
  function MatchContext(p: LolPredictor, info: MatchInfo): Result<map<string, real>, string>
    requires OneHotValid(p.patchEncoder) && OneHotValid(p.regionEncoder)
  {
    var patchVec :- OneHotRow(p.patchEncoder, info.patch);
    var m0 := WriteAll(map[], p.patchEncoder.features, patchVec);
    var regionVec :- OneHotRow(p.regionEncoder, Lower(info.region));
    var m1 := WriteAll(m0, p.regionEncoder.features, regionVec);
    var blueElo :- TeamElo(p, info.blue.teamName);
    var redElo :- TeamElo(p, info.red.teamName);
    Success(m1[EloKey(Blue) := blueElo][EloKey(Red) := redElo])
  }

  /**
   * The feature map `predict_match` builds, in its order of writing: the
   * match-wide features, then per side the team code and per role the
   * player, the champion and the six historical averages.
   */
  function Assembled(p: LolPredictor, info: MatchInfo): Result<map<string, real>, string>
    requires Loaded(p)
  {
    var m :- MatchContext(p, info);
    SidesFeatures(p, m, info, Colors)
  }

  /** The match-wide features, written one by one. */
  method WriteMatchContext(p: LolPredictor, info: MatchInfo) returns (r: Result<map<string, real>, string>)
    requires OneHotValid(p.patchEncoder) && OneHotValid(p.regionEncoder)
    ensures r == MatchContext(p, info)
  {
    var data: map<string, real> := map[];
    var patchVec :- OneHotRow(p.patchEncoder, info.patch);
    var features := p.patchEncoder.features;
    for i := 0 to |features|
      invariant WriteAll(map[], features, patchVec) == WriteAll(data, features[i..], patchVec[i..])
    {
      data := data[features[i] := patchVec[i]];
    }
    var regionVec :- OneHotRow(p.regionEncoder, Lower(info.region));
    ghost var m0 := data;
    features := p.regionEncoder.features;
    for i := 0 to |features|
      invariant WriteAll(m0, features, regionVec) == WriteAll(data, features[i..], regionVec[i..])
    {
      data := data[features[i] := regionVec[i]];
    }
    var blueElo :- TeamElo(p, info.blue.teamName);
    var redElo :- TeamElo(p, info.red.teamName);
    r := Success(data[EloKey(Blue) := blueElo][EloKey(Red) := redElo]);
  }

  /** One role's features added to `data`: the codes, then each average in the given order. */
  method WriteRole(p: LolPredictor, data: map<string, real>, c: Color, team: TeamInfo, role: Role) returns (r: Result<map<string, real>, string>)
    requires p.history.rows != []
    ensures r == RoleFeatures(p, data, c, team, role)
  {
    var playerCode :- Transform(p.playerEncoders.Get(role), Lower(team.players.Get(role)));
    var championCode :- Transform(p.championEncoders.Get(role), Lower(team.champions.Get(role)));
    // the player's averages, for the code `get_player_historical_stats` recomputes
    var hist := AverageStats(p.history, role, playerCode as real, Stats);
    AddAveragesMeaning(map[], p.history, role, playerCode as real, Stats);
    var out := WriteStats(data[PlayerKey(c, role) := playerCode as real][ChampionKey(c, role) := championCode as real],
                          c, role, hist, Stats);
    r := Success(out);
  }

  /** Writes each average of `hist`, in the order of `order`, under its feature name. */
  method WriteStats(data: map<string, real>, c: Color, role: Role, hist: map<Stat, real>, order: seq<Stat>) returns (out: map<string, real>)
    requires forall s :: s in order ==> s in hist
    ensures out == WriteHistory(data, c, role, hist, order)
  {
    out := data;
    for i := 0 to |order|
      invariant WriteHistory(data, c, role, hist, order) == WriteHistory(out, c, role, hist, order[i..])
    {
      out := out[HistoryKey(c, role, order[i]) := hist[order[i]]];
    }
  }

  /** One side's features added to `data`: the team code, then its five roles. */
  method WriteSide(p: LolPredictor, data: map<string, real>, info: MatchInfo, c: Color) returns (r: Result<map<string, real>, string>)
    requires p.history.rows != []
    ensures r == SideFeatures(p, data, info, c)
  {
    var team := info.Team(c);
    var teamCode :- Transform(p.teamEncoder, Lower(team.teamName));
    r := WriteRoles(p, data[TeamKey(c) := teamCode as real], c, team, Roles);
  }

  /** The features of `roles` added to `data`, role after role. */
  method WriteRoles(p: LolPredictor, data: map<string, real>, c: Color, team: TeamInfo, roles: seq<Role>) returns (r: Result<map<string, real>, string>)
    requires p.history.rows != []
    ensures r == RolesFeatures(p, data, c, team, roles)
  {
    var out := data;
    for i := 0 to |roles|
      invariant RolesFeatures(p, data, c, team, roles) == RolesFeatures(p, out, c, team, roles[i..])
    {
      out :- WriteRole(p, out, c, team, roles[i]);
    }
    r := Success(out);
  }

  /** The feature map of `predict_match`, built step by step. */
  method AssembleFeatures(p: LolPredictor, info: MatchInfo) returns (r: Result<map<string, real>, string>)
    requires Loaded(p)
    ensures r == Assembled(p, info)
  {
    var data :- WriteMatchContext(p, info);
    ghost var start := data;
    for i := 0 to |Colors|
      invariant SidesFeatures(p, start, info, Colors) == SidesFeatures(p, data, info, Colors[i..])
    {
      data :- WriteSide(p, data, info, Colors[i]);
    }
    r := Success(data);
  }

  // ---------------------------------------------------------------------
  // What the assembly succeeds on, and which features it writes
  // ---------------------------------------------------------------------

  /** The role's player and champion, lowercased, are known to the role's encoders. */
  ghost predicate KnownPick(p: LolPredictor, team: TeamInfo, role: Role) {
    && Lower(team.players.Get(role)) in p.playerEncoders.Get(role).classes
    && Lower(team.champions.Get(role)) in p.championEncoders.Get(role).classes
  }

  /** The team, lowercased, is known to the team encoder, and so are all its picks. */
  ghost predicate KnownTeam(p: LolPredictor, team: TeamInfo) {
    && Lower(team.teamName) in p.teamEncoder.classes
    && forall role :: KnownPick(p, team, role)
  }

  /** The patch and the region are known and both teams have a rating. */
  ghost predicate KnownContext(p: LolPredictor, info: MatchInfo) {
    && info.patch in p.patchEncoder.table
    && Lower(info.region) in p.regionEncoder.table
    && TeamElo(p, info.blue.teamName).Success?
    && TeamElo(p, info.red.teamName).Success?
  }

  /** Every name of the match is known: no lookup `predict_match` makes can fail. */
  ghost predicate KnownNames(p: LolPredictor, info: MatchInfo) {
    KnownContext(p, info) && KnownTeam(p, info.blue) && KnownTeam(p, info.red)
  }

  /** Every role known: the roles' features are assembled. */
  lemma {:induction false} RolesFeaturesSucceed(p: LolPredictor, m: map<string, real>, c: Color, team: TeamInfo, roles: seq<Role>)
    requires p.history.rows != []
    requires forall r :: r in roles ==> KnownPick(p, team, r)
    ensures RolesFeatures(p, m, c, team, roles).Success?
    decreases |roles|
  {
    if roles != [] {
      RoleFeaturesSucceeds(p, m, c, team, roles[0]);
      var step := RoleFeatures(p, m, c, team, roles[0]);
      RolesFeaturesSucceed(p, step.value, c, team, roles[1..]);
    }
  }

  /** A role whose pick is unknown makes the roles' assembly fail. */
  lemma {:induction false} RolesFeaturesFail(p: LolPredictor, m: map<string, real>, c: Color, team: TeamInfo, roles: seq<Role>, role: Role)
    requires p.history.rows != []
    requires role in roles && !KnownPick(p, team, role)
    ensures RolesFeatures(p, m, c, team, roles).Failure?
    decreases |roles|
  {
    RoleFeaturesSucceeds(p, m, c, team, roles[0]);
    var step := RoleFeatures(p, m, c, team, roles[0]);
    if step.Success? && roles[0] != role {
      RolesFeaturesFail(p, step.value, c, team, roles[1..], role);
    }
  }

  /** The roles' assembly succeeds exactly when every role's pick is known. */
  lemma RolesFeaturesSucceeds(p: LolPredictor, m: map<string, real>, c: Color, team: TeamInfo, roles: seq<Role>)
    requires p.history.rows != []
    ensures RolesFeatures(p, m, c, team, roles).Success? <==> forall r :: r in roles ==> KnownPick(p, team, r)
  {
    if forall r :: r in roles ==> KnownPick(p, team, r) {
      RolesFeaturesSucceed(p, m, c, team, roles);
    } else {
      var role :| role in roles && !KnownPick(p, team, role);
      RolesFeaturesFail(p, m, c, team, roles, role);
    }
  }

  lemma RoleFeaturesSucceeds(p: LolPredictor, m: map<string, real>, c: Color, team: TeamInfo, role: Role)
    requires p.history.rows != []
    ensures RoleFeatures(p, m, c, team, role).Success? <==> KnownPick(p, team, role)
  {
    PlayerHistoryMeaning(p, team.players.Get(role), role);
  }

  lemma AllRolesKnown(p: LolPredictor, team: TeamInfo)
    ensures (forall r :: r in Roles ==> KnownPick(p, team, r)) <==> forall role :: KnownPick(p, team, role)
  {
    if forall r :: r in Roles ==> KnownPick(p, team, r) {
      forall role ensures KnownPick(p, team, role) {
        EveryRoleListed(role);
      }
    }
  }

  /** One side's assembly succeeds exactly when its team and all its picks are known. */
  lemma SideFeaturesSucceeds(p: LolPredictor, m: map<string, real>, info: MatchInfo, c: Color)
    requires p.history.rows != []
    ensures SideFeatures(p, m, info, c).Success? <==> KnownTeam(p, info.Team(c))
  {
    AllRolesKnown(p, info.Team(c));
    var code := Transform(p.teamEncoder, Lower(info.Team(c).teamName));
    if code.Success? {
      RolesFeaturesSucceeds(p, m[TeamKey(c) := code.value as real], c, info.Team(c), Roles);
    }
  }

  lemma SidesFeaturesSucceeds(p: LolPredictor, m: map<string, real>, info: MatchInfo)
    requires p.history.rows != []
    ensures SidesFeatures(p, m, info, Colors).Success? <==> KnownTeam(p, info.blue) && KnownTeam(p, info.red)
  {
    assert Colors[0] == Blue && Colors[1..] == [Red] && [Red][1..] == [];
    SideFeaturesSucceeds(p, m, info, Blue);
    var blue := SideFeatures(p, m, info, Blue);
    if blue.Success? {
      SideFeaturesSucceeds(p, blue.value, info, Red);
    }
  }

  /** The match-wide part succeeds exactly when the patch and region are known and both teams have a rating. */
  lemma MatchContextSucceeds(p: LolPredictor, info: MatchInfo)
    requires OneHotValid(p.patchEncoder) && OneHotValid(p.regionEncoder)
    ensures MatchContext(p, info).Success? <==> KnownContext(p, info)
  {
  }

  /**
   * The assembly succeeds exactly when every name of the match is known to
   * its encoder (the region, team, player and champion names lowercased,
   * the patch as given) and both teams have a rating: any unknown name makes
   * the whole prediction fail, with no default.
   */
  lemma AssembledSucceeds(p: LolPredictor, info: MatchInfo)
    requires Loaded(p)
    ensures Assembled(p, info).Success? <==> KnownNames(p, info)
  {
    MatchContextSucceeds(p, info);
    var m := MatchContext(p, info);
    if m.Success? {
      SidesFeaturesSucceeds(p, m.value, info);
    }
  }

  lemma {:induction false} WriteAllKeys(m: map<string, real>, ks: seq<string>, vs: seq<real>)
    requires |ks| == |vs|
    ensures WriteAll(m, ks, vs).Keys == m.Keys + set k | k in ks
    decreases |ks|
  {
    if ks != [] {
      WriteAllKeys(m[ks[0] := vs[0]], ks[1..], vs[1..]);
      assert ks == [ks[0]] + ks[1..];
    }
  }

  /** The feature names of the averages of `stats` for one role of one side. */
  function HistoryKeys(c: Color, r: Role, stats: seq<Stat>): set<string>
    decreases |stats|
  {
    if stats == [] then {} else {HistoryKey(c, r, stats[0])} + HistoryKeys(c, r, stats[1..])
  }

  lemma {:induction false} WriteHistoryKeys(m: map<string, real>, c: Color, r: Role, hist: map<Stat, real>, stats: seq<Stat>)
    requires forall s :: s in stats ==> s in hist
    ensures WriteHistory(m, c, r, hist, stats).Keys == m.Keys + HistoryKeys(c, r, stats)
    decreases |stats|
  {
    if stats != [] {
      WriteHistoryKeys(m[HistoryKey(c, r, stats[0]) := hist[stats[0]]], c, r, hist, stats[1..]);
    }
  }

  /** The features one role of one side contributes: player, champion and six averages. */
  function RoleKeys(c: Color, r: Role): set<string> {
    {PlayerKey(c, r), ChampionKey(c, r)} + HistoryKeys(c, r, Stats)
  }

  function RolesKeys(c: Color, roles: seq<Role>): set<string> {
    if roles == [] then {} else RoleKeys(c, roles[0]) + RolesKeys(c, roles[1..])
  }

  /** The features one side contributes: its team code and every role's features. */
  function SideKeys(c: Color): set<string> {
    {TeamKey(c)} + RolesKeys(c, Roles)
  }

  /** One role's step adds exactly that role's features. */
  lemma RoleFeaturesKeys(p: LolPredictor, m: map<string, real>, c: Color, team: TeamInfo, role: Role)
    requires p.history.rows != []
    requires RoleFeatures(p, m, c, team, role).Success?
    ensures RoleFeatures(p, m, c, team, role).value.Keys == m.Keys + RoleKeys(c, role)
  {
    var playerCode := Transform(p.playerEncoders.Get(role), Lower(team.players.Get(role))).value;
    var championCode := Transform(p.championEncoders.Get(role), Lower(team.champions.Get(role))).value;
    var m1 := m[PlayerKey(c, role) := playerCode as real][ChampionKey(c, role) := championCode as real];
    RoleHistoryKeys(p, m1, c, team.players.Get(role), role);
  }

  lemma {:induction false} RolesFeaturesKeys(p: LolPredictor, m: map<string, real>, c: Color, team: TeamInfo, roles: seq<Role>)
    requires p.history.rows != [] && RolesFeatures(p, m, c, team, roles).Success?
    ensures RolesFeatures(p, m, c, team, roles).value.Keys == m.Keys + RolesKeys(c, roles)
    decreases |roles|
  {
    if roles != [] {
      RoleFeaturesKeys(p, m, c, team, roles[0]);
      RolesFeaturesKeys(p, RoleFeatures(p, m, c, team, roles[0]).value, c, team, roles[1..]);
    }
  }

  function SidesKeys(colors: seq<Color>): set<string> {
    if colors == [] then {} else SideKeys(colors[0]) + SidesKeys(colors[1..])
  }

  lemma SideFeaturesKeys(p: LolPredictor, m: map<string, real>, info: MatchInfo, c: Color)
    requires p.history.rows != [] && SideFeatures(p, m, info, c).Success?
    ensures SideFeatures(p, m, info, c).value.Keys == m.Keys + SideKeys(c)
  {
    var teamCode := Transform(p.teamEncoder, Lower(info.Team(c).teamName)).value;
    RolesFeaturesKeys(p, m[TeamKey(c) := teamCode as real], c, info.Team(c), Roles);
  }

  lemma {:induction false} SidesFeaturesKeys(p: LolPredictor, m: map<string, real>, info: MatchInfo, colors: seq<Color>)
    requires p.history.rows != [] && SidesFeatures(p, m, info, colors).Success?
    ensures SidesFeatures(p, m, info, colors).value.Keys == m.Keys + SidesKeys(colors)
    decreases |colors|
  {
    if colors != [] {
      SideFeaturesKeys(p, m, info, colors[0]);
      SidesFeaturesKeys(p, SideFeatures(p, m, info, colors[0]).value, info, colors[1..]);
    }
  }

  /** The match-wide part writes the patch's and the region's one-hot features and both ratings. */
  lemma MatchContextKeys(p: LolPredictor, info: MatchInfo)
    requires OneHotValid(p.patchEncoder) && OneHotValid(p.regionEncoder)
    requires MatchContext(p, info).Success?
    ensures MatchContext(p, info).value.Keys ==
              (set k | k in p.patchEncoder.features) + (set k | k in p.regionEncoder.features) + {EloKey(Blue), EloKey(Red)}
  {
    var patchVec := p.patchEncoder.table[info.patch];
    var m0 := WriteAll(map[], p.patchEncoder.features, patchVec);
    WriteAllKeys(map[], p.patchEncoder.features, patchVec);
    WriteAllKeys(m0, p.regionEncoder.features, p.regionEncoder.table[Lower(info.region)]);
  }

  /**
   * Before reindexing, the feature map holds exactly: the patch's and the
   * region's one-hot features, both Elo ratings, and for each side its team
   * code and, for each of the five roles, the player, the champion and the
   * six historical averages.
   */
  lemma AssembledKeys(p: LolPredictor, info: MatchInfo)
    requires Loaded(p) && Assembled(p, info).Success?
    ensures Assembled(p, info).value.Keys ==
              (set k | k in p.patchEncoder.features) + (set k | k in p.regionEncoder.features)
              + {EloKey(Blue), EloKey(Red)} + SideKeys(Blue) + SideKeys(Red)
  {
    MatchContextKeys(p, info);
    SidesFeaturesKeys(p, MatchContext(p, info).value, info, Colors);
    BothSidesKeys();
  }

  lemma BothSidesKeys()
    ensures SidesKeys(Colors) == SideKeys(Blue) + SideKeys(Red)
  {
    assert Colors[1..][1..] == [];
  }

  // ---------------------------------------------------------------------
  // Reindexing, the threshold and the predictions
  // ---------------------------------------------------------------------

  /** `reindex(columns=columns, fill_value=0.0)`: one entry per column, 0.0 where the map has none. */
  function Reindex(m: map<string, real>, columns: seq<string>): (row: seq<(string, real)>)
    ensures |row| == |columns|
  {
    seq(|columns|, i requires 0 <= i < |columns| => (columns[i], if columns[i] in m then m[columns[i]] else 0.0))
  }

  /**
   * The reindexed row has the stored columns as its names, in order; a
   * column the map holds keeps its value and any other is 0.0.
   */
  lemma ReindexSchema(m: map<string, real>, columns: seq<string>, i: nat)
    requires i < |columns|
    ensures Reindex(m, columns)[i].0 == columns[i]
    ensures columns[i] in m ==> Reindex(m, columns)[i].1 == m[columns[i]]
    ensures columns[i] !in m ==> Reindex(m, columns)[i].1 == 0.0
  {
  }

  /** Entries outside the stored columns are discarded: they cannot change the row. */
  lemma ReindexDiscardsExtras(m: map<string, real>, extra: map<string, real>, columns: seq<string>)
    requires forall k :: k in extra ==> k !in columns
    ensures Reindex(m + extra, columns) == Reindex(m, columns)
  {
  }

  /** `"Blue" if blue_win_prob > 0.5 else "Red"`. */
  function Winner(blueWinProb: real): string {
    if blueWinProb > 0.5 then "Blue" else "Red"
  }

  /**
   * Blue is predicted exactly when its probability is strictly greater than
   * Red's; an even match goes to Red.
   */
  lemma WinnerThreshold(blueWinProb: Probability)
    ensures Winner(blueWinProb) == "Blue" <==> blueWinProb > 1.0 - blueWinProb
    ensures Winner(blueWinProb) == "Red" <==> blueWinProb <= 1.0 - blueWinProb
    ensures Winner(0.5) == "Red"
  {
  }

  datatype Prediction = Prediction(predictedWinner: string, blueWinProbability: Probability)

  /** The prediction a classifier gives on a feature map. */
  function Predicted(features: map<string, real>, columns: seq<string>, model: Classifier): Prediction {
    var prob := model(Reindex(features, columns));
    Prediction(Winner(prob), prob)
  }

  /**
   * `predict_match`: it fails exactly when a name is unknown; otherwise the
   * classifier sees the assembled features reindexed to the stored columns,
   * and the winner follows its probability of a Blue win.
   */
  method PredictMatch(p: LolPredictor, info: MatchInfo, model: Classifier) returns (r: Result<Prediction, string>)
    requires Loaded(p)
    ensures r.Success? <==> KnownNames(p, info)
    ensures r.Success? ==> Assembled(p, info).Success? &&
                           r.value == Predicted(Assembled(p, info).value, p.featureColumns, model)
    ensures r.Success? ==> (r.value.predictedWinner == "Blue" <==> r.value.blueWinProbability > 0.5)
  {
    AssembledSucceeds(p, info);
    var features :- AssembleFeatures(p, info);
    var row := Reindex(features, p.featureColumns);
    var blueWinProb := model(row);
    var winner := if blueWinProb > 0.5 then "Blue" else "Red";
    r := Success(Prediction(winner, blueWinProb));
  }

  /** `predict_voting`: `predict_match` with the voting ensemble. */
  method PredictVoting(p: LolPredictor, info: MatchInfo) returns (r: Result<Prediction, string>)
    requires Loaded(p)
    ensures r.Success? <==> KnownNames(p, info)
    ensures r.Success? ==> Assembled(p, info).Success? &&
                           r.value == Predicted(Assembled(p, info).value, p.featureColumns, p.votingModel)
  {
    r := PredictMatch(p, info, p.votingModel);
  }

  /** `predict_elastic`: `predict_match` with the elastic-net model. */
  method PredictElastic(p: LolPredictor, info: MatchInfo) returns (r: Result<Prediction, string>)
    requires Loaded(p)
    ensures r.Success? <==> KnownNames(p, info)
    ensures r.Success? ==> Assembled(p, info).Success? &&
                           r.value == Predicted(Assembled(p, info).value, p.featureColumns, p.elasticModel)
  {
    r := PredictMatch(p, info, p.elasticModel);
  }

  // ---------------------------------------------------------------------
  // Listings
  // ---------------------------------------------------------------------

  lemma StrLeIsTotalOrder()
    ensures IsTotal(StrLe) && IsAntisymmetric(StrLe) && IsTransitive(StrLe)
  {
    forall a, b ensures StrLe(a, b) || StrLe(b, a) {
      StrLeTotal(a, b);
    }
    forall a, b | StrLe(a, b) && StrLe(b, a) ensures a == b {
      StrLeAntisymmetric(a, b);
    }
    forall a, b, c | StrLe(a, b) && StrLe(b, c) ensures StrLe(a, c) {
      StrLeTransitive(a, b, c);
    }
  }

  /** `sorted` on a list of strings. */
  function SortedNames(names: seq<string>): (r: seq<string>)
    ensures Sorted(r, StrLe) && multiset(r) == multiset(names)
  {
    StrLeIsTotalOrder();
    Sort(names, StrLe)
  }

  /** A sorted listing depends only on which names there are, not on the order they came in. */
  lemma SortedNamesCanonical(a: seq<string>, b: seq<string>)
    requires multiset(a) == multiset(b)
    ensures SortedNames(a) == SortedNames(b)
  {
    StrLeIsTotalOrder();
    SortedUnique(SortedNames(a), SortedNames(b), StrLe);
  }

  /** `get_teams`: the team vocabulary, sorted. */
  function Teams(p: LolPredictor): (r: seq<string>)
    ensures Sorted(r, StrLe) && multiset(r) == multiset(p.teamEncoder.classes)
  {
    SortedNames(p.teamEncoder.classes)
  }

  /** `get_champions`: a role's champion vocabulary, sorted. */
  function Champions(p: LolPredictor, role: Role): (r: seq<string>)
    ensures Sorted(r, StrLe) && multiset(r) == multiset(p.championEncoders.Get(role).classes)
  {
    SortedNames(p.championEncoders.Get(role).classes)
  }

  /** `get_players`: a role's player vocabulary, sorted. */
  function Players(p: LolPredictor, role: Role): (r: seq<string>)
    ensures Sorted(r, StrLe) && multiset(r) == multiset(p.playerEncoders.Get(role).classes)
  {
    SortedNames(p.playerEncoders.Get(role).classes)
  }

  /** The player codes of `role` on the side `c` in the rows where that side is the team `code`. */
  function SidePlayers(f: Frame, c: Color, role: Role, code: real): set<real> {
    set row | row in f.rows && Cell(row, TeamKey(c)) == code :: Cell(row, PlayerKey(c, role))
  }

  /** `names` lists the decoded `codes` in order: one name per code, and exactly their names. */
  ghost predicate ListsNames(e: Encoder, codes: set<real>, names: seq<string>) {
    && Sorted(names, StrLe)
    && |names| == |codes|
    && forall n :: n in names <==> exists x :: x in codes && Decode(e, x) == Some(n)
  }

  /**
   * The sorted names of a set of player codes, decoded one by one in
   * whatever order the set is walked; a code the encoder cannot decode is an
   * error.
   */
  method DecodeSorted(e: Encoder, codes: set<real>) returns (r: Result<seq<string>, string>)
    ensures r.Success? <==> forall x :: x in codes ==> Decode(e, x).Some?
    ensures r.Success? ==> ListsNames(e, codes, r.value)
  {
    var names: seq<string> := [];
    var rest := codes;
    while |rest| > 0
      invariant rest <= codes
      invariant |names| + |rest| == |codes|
      invariant forall x :: x in codes - rest ==> Decode(e, x).Some?
      invariant forall n :: n in names <==> exists x :: x in codes - rest && Decode(e, x) == Some(n)
      decreases |rest|
    {
      assert exists y :: y in rest by {
        if forall y :: y !in rest {
          assert false;
        }
      }
      var x :| x in rest;
      var name := Decode(e, x);
      if name.None? {
        return Failure("code outside the encoder");
      }
      names := names + [name.value];
      rest := rest - {x};
    }
    r := Success(SortedList(names));
  }

  /** `sorted` of a list of names, with what it keeps stated over membership and length. */
  function SortedList(names: seq<string>): (r: seq<string>)
    ensures Sorted(r, StrLe) && |r| == |names|
    ensures forall n :: n in r <==> n in names
  {
    var sorted := SortedNames(names);
    assert |sorted| == |names| by {
      assert |multiset(sorted)| == |multiset(names)|;
    }
    assert forall n :: n in sorted <==> n in names by {
      forall n ensures n in sorted <==> n in names {
        assert n in sorted <==> n in multiset(sorted);
        assert n in names <==> n in multiset(names);
      }
    }
    sorted
  }

  /** The codes of the players who played `role` for the team encoded as `code`, on either side. */
  function RolePlayerCodes(f: Frame, role: Role, code: real): set<real> {
    SidePlayers(f, Blue, role, code) + SidePlayers(f, Red, role, code)
  }

  /** Every player code of `role` for the team encoded as `code` decodes under the role's encoder. */
  ghost predicate PlayersDecode(p: LolPredictor, code: real, role: Role) {
    forall x :: x in RolePlayerCodes(p.history, role, code) ==> Decode(p.playerEncoders.Get(role), x).Some?
  }

  /**
   * `get_team_players`: per role, the sorted names of the players who
   * played that role for the team on either side. The team name is
   * lowercased; it succeeds exactly when the team is known and every such
   * player code decodes.
   */
  method TeamPlayers(p: LolPredictor, teamName: string) returns (r: Result<map<Role, seq<string>>, string>)
    ensures Lower(teamName) !in p.teamEncoder.classes ==> r.Failure?
    ensures r.Success? <==>
              && Lower(teamName) in p.teamEncoder.classes
              && forall role :: role in Roles ==> PlayersDecode(p, Transform(p.teamEncoder, Lower(teamName)).value as real, role)
    ensures r.Success? ==> Lower(teamName) in p.teamEncoder.classes && forall role :: role in r.value <==> role in Roles
    ensures r.Success? ==> forall role :: role in r.value ==>
              ListsNames(p.playerEncoders.Get(role), RolePlayerCodes(p.history, role, Transform(p.teamEncoder, Lower(teamName)).value as real), r.value[role])
  {
    var teamCode :- Transform(p.teamEncoder, Lower(teamName));
    r := PlayersByRole(p, teamCode as real, Roles);
  }

  /** For each of `roles`, the sorted names of the team's players in that role. */
  method PlayersByRole(p: LolPredictor, code: real, roles: seq<Role>) returns (r: Result<map<Role, seq<string>>, string>)
    ensures r.Success? <==> forall role :: role in roles ==> PlayersDecode(p, code, role)
    ensures r.Success? ==> forall role :: role in r.value <==> role in roles
    ensures r.Success? ==> forall role :: role in r.value ==>
              ListsNames(p.playerEncoders.Get(role), RolePlayerCodes(p.history, role, code), r.value[role])
  {
    var players: map<Role, seq<string>> := map[];
    for i := 0 to |roles|
      invariant forall role :: role in players <==> role in roles[..i]
      invariant forall role :: role in roles[..i] ==> PlayersDecode(p, code, role)
      invariant forall role :: role in players ==>
                  ListsNames(p.playerEncoders.Get(role), RolePlayerCodes(p.history, role, code), players[role])
    {
      var decoded := DecodeSorted(p.playerEncoders.Get(roles[i]), RolePlayerCodes(p.history, roles[i], code));
      if decoded.Failure? {
        assert roles[i] in roles && !PlayersDecode(p, code, roles[i]);
        return Failure(decoded.error);
      }
      var names := decoded.value;
      assert roles[..i + 1] == roles[..i] + [roles[i]];
      players := players[roles[i] := names];
    }
    assert roles[..|roles|] == roles;
    r := Success(players);
  }

  const RegionPrefix := "Region_"

  /** The region names the dataset's one-hot columns stand for, in column order. */
  function RegionNames(columns: seq<string>): seq<string> {
    if columns == [] then []
    else
      var col := columns[|columns| - 1];
      RegionNames(columns[..|columns| - 1])
        + (if StartsWith(col, RegionPrefix) then [ReplaceAll(col, RegionPrefix, "")] else [])
  }

  /**
   * `get_regions`: "cn" (the category the one-hot encoding drops) and the
   * name of every "Region_" column, sorted, duplicates kept.
   */
  method Regions(p: LolPredictor) returns (regions: seq<string>)
    ensures regions == SortedNames(["cn"] + RegionNames(p.history.columns))
  {
    var columns := p.history.columns;
    var names := ["cn"];
    for i := 0 to |columns|
      invariant names == ["cn"] + RegionNames(columns[..i])
    {
      assert columns[..i + 1][..i] == columns[..i];
      var col := columns[i];
      if StartsWith(col, RegionPrefix) {
        names := names + [ReplaceAll(col, RegionPrefix, "")];
      }
    }
    assert columns[..|columns|] == columns;
    regions := SortedNames(names);
  }

  /** The column "Region_" + `name` lists `name`, when `name` does not itself contain "Region_". */
  lemma RegionColumnNamesRegion(name: string)
    requires forall i :: 0 <= i < |name| ==> !OccursAt(name, RegionPrefix, i)
    ensures RegionNames([RegionPrefix + name]) == [name]
  {
    var col := RegionPrefix + name;
    assert StartsWith(col, RegionPrefix);
    assert col[|RegionPrefix|..] == name;
    ReplaceAllUnchanged(name, RegionPrefix, "");
    assert ReplaceAll(col, RegionPrefix, "") == "" + ReplaceAll(name, RegionPrefix, "") == name;
    var cols: seq<string> := [col];
    assert cols[..0] == [];
  }

  /** The region list always holds "cn", and every region a column names. */
  lemma RegionsListed(columns: seq<string>, k: nat)
    requires k < |columns| && StartsWith(columns[k], RegionPrefix)
    ensures "cn" in SortedNames(["cn"] + RegionNames(columns))
    ensures ReplaceAll(columns[k], RegionPrefix, "") in SortedNames(["cn"] + RegionNames(columns))
  {
    var all := ["cn"] + RegionNames(columns);
    assert "cn" in multiset(all);
    RegionNamesHas(columns, k);
    assert ReplaceAll(columns[k], RegionPrefix, "") in multiset(all);
  }

  lemma {:induction false} RegionNamesHas(columns: seq<string>, k: nat)
    requires k < |columns| && StartsWith(columns[k], RegionPrefix)
    ensures ReplaceAll(columns[k], RegionPrefix, "") in RegionNames(columns)
  {
    if k < |columns| - 1 {
      RegionNamesHas(columns[..|columns| - 1], k);
    }
  }

  // ---------------------------------------------------------------------
  // Patches
  // ---------------------------------------------------------------------

  /** A game patch, "major.minor". */
  datatype Patch = Patch(major: nat, minor: nat)

  /** The descending order `get_patches` sorts by: major first, then minor. */
  predicate PatchGe(a: Patch, b: Patch) {
    a.major > b.major || (a.major == b.major && a.minor >= b.minor)
  }

  lemma PatchGeIsTotalOrder()
    ensures IsTotal(PatchGe) && IsAntisymmetric(PatchGe) && IsTransitive(PatchGe)
  {
  }

  /** The patch a "Patch_" column suffix names: "major.minor", or a bare "major" (minor 0). */
  function ParsePatch(s: string): Option<Patch> {
    var k := IndexOf(s, '.');
    if k == |s| then
      if IsNumeral(s) then Some(Patch(ParseNat(s), 0)) else None
    else if IsNumeral(s[..k]) && IsNumeral(s[k + 1..]) then
      Some(Patch(ParseNat(s[..k]), ParseNat(s[k + 1..])))
    else None
  }

  /** A patch written out as "major.minor" reads back as itself. */
  lemma ParsePatchRoundTrip(patch: Patch)
    ensures ParsePatch(NatToString(patch.major) + "." + NatToString(patch.minor)) == Some(patch)
  {
    var a := NatToString(patch.major);
    var b := NatToString(patch.minor);
    var s := a + "." + b;
    NatToStringRoundTrip(patch.major);
    NatToStringRoundTrip(patch.minor);
    assert s[|a|] == '.';
    assert forall i :: 0 <= i < |a| ==> s[i] == a[i] && IsDigit(a[i]);
    IndexOfIsFirst(s, '.', |a|);
    assert s[..|a|] == a && s[|a| + 1..] == b;
  }

  const PatchPrefix := "Patch_"

  /** The patches the dataset's "Patch_" columns name, in column order; `None` if one does not parse. */
  function PatchNames(columns: seq<string>): Option<seq<Patch>> {
    if columns == [] then Some([])
    else
      var col := columns[|columns| - 1];
      var init :- PatchNames(columns[..|columns| - 1]);
      if StartsWith(col, PatchPrefix) then
        var patch :- ParsePatch(ReplaceAll(col, PatchPrefix, ""));
        Some(init + [patch])
      else Some(init)
  }

  /** Patches listed newest first: descending by major, then minor. */
  function SortedPatches(patches: seq<Patch>): (r: seq<Patch>)
    ensures Sorted(r, PatchGe) && multiset(r) == multiset(patches)
  {
    PatchGeIsTotalOrder();
    Sort(patches, PatchGe)
  }

  /**
   * `get_patches`: 15.1 (the category the one-hot encoding drops) and the
   * patch of every "Patch_" column, newest first; a column whose suffix is
   * not a patch number is an error.
   */
  method Patches(p: LolPredictor) returns (r: Result<seq<Patch>, string>)
    ensures PatchNames(p.history.columns).None? ==> r.Failure?
    ensures PatchNames(p.history.columns).Some? ==>
              r == Success(SortedPatches([Patch(15, 1)] + PatchNames(p.history.columns).value))
  {
    var columns := p.history.columns;
    var patches := [Patch(15, 1)];
    for i := 0 to |columns|
      invariant PatchNames(columns[..i]).Some?
      invariant patches == [Patch(15, 1)] + PatchNames(columns[..i]).value
    {
      assert columns[..i + 1][..i] == columns[..i];
      var col := columns[i];
      if StartsWith(col, PatchPrefix) {
        var patch := ParsePatch(ReplaceAll(col, PatchPrefix, ""));
        if patch.None? {
          PatchNamesFailureSticks(columns, i + 1);
          assert columns[..|columns|] == columns;
          return Failure("not a patch number: " + col);
        }
        patches := patches + [patch.value];
      }
    }
    assert columns[..|columns|] == columns;
    r := Success(SortedPatches(patches));
  }

  lemma {:induction false} PatchNamesFailureSticks(columns: seq<string>, i: nat)
    requires i <= |columns| && PatchNames(columns[..i]).None?
    ensures PatchNames(columns).None?
    decreases |columns| - i
  {
    if i < |columns| {
      assert columns[..i + 1][..i] == columns[..i];
      PatchNamesFailureSticks(columns, i + 1);
    } else {
      assert columns[..i] == columns;
    }
  }

  /**
   * The patch list parses exactly when every "Patch_" column does, and then
   * it always holds 15.1, newest patch first.
   */
  lemma {:induction false} PatchNamesMeaning(columns: seq<string>)
    ensures PatchNames(columns).Some? <==>
              forall k :: 0 <= k < |columns| && StartsWith(columns[k], PatchPrefix) ==>
                ParsePatch(ReplaceAll(columns[k], PatchPrefix, "")).Some?
  {
    if columns != [] {
      var init := columns[..|columns| - 1];
      PatchNamesMeaning(init);
      assert forall k :: 0 <= k < |init| ==> init[k] == columns[k];
    }
  }

  lemma DefaultPatchListed(patches: seq<Patch>)
    ensures Patch(15, 1) in SortedPatches([Patch(15, 1)] + patches)
    ensures forall q :: q in SortedPatches([Patch(15, 1)] + patches) ==> q == Patch(15, 1) || q in patches
  {
    var all := [Patch(15, 1)] + patches;
    assert Patch(15, 1) in multiset(all);
    forall q | q in SortedPatches(all) ensures q == Patch(15, 1) || q in patches {
      assert q in multiset(all);
    }
  }
}
