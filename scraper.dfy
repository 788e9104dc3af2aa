/**
 * The game-record side of the collector (`StatsScraper` in data/scraper.py).
 *
 * The two pages fetched per game are given already parsed: the team summary
 * page as a `TeamPage` (the text of each block the parser looks for, or `None`
 * when the block is missing) and the full statistics page as an optional
 * `StatsTable` (the alt text of each header portrait and the cell texts of
 * every table row). The ID file is kept as its text, the CSV as the list of
 * rows appended to it.
 */
module Scraper {
  import opened Wrappers
  import opened Text

  /** A field of a scraped record: the game ID is a number, every other field is text. */
  datatype Value = Num(n: int) | Str(s: string)

  /** One per-champion record (`data_per_champ[i]`): field name to value. */
  type Record = map<string, Value>

  /** The first ten CSV columns: the fields every record gets from the team summary. */
  const GameColumns: seq<string> :=
    ["GameID", "Team", "Result", "Game Time", "Side", "Patch", "Tournament", "Date", "Region", "Champion"]

  /** The remaining CSV columns, labels of the statistics rows. */
  const StatColumns: seq<string> := [
    "Player", "Role", "Level", "Kills", "Deaths", "Assists", "KDA",
    "CS", "CS in Team's Jungle", "CS in Enemy Jungle", "CSM", "Golds", "GPM", "GOLD%",
    "Vision Score", "Wards placed", "Wards destroyed", "Control Wards Purchased",
    "Detector Wards Placed", "VSPM", "WPM", "VWPM", "WCPM", "VS%", "Total damage to Champion",
    "Physical Damage", "Magic Damage", "True Damage", "DPM", "DMG%", "K+A Per Minute", "KP%",
    "Solo kills", "Double kills", "Triple kills", "Quadra kills", "Penta kills", "GD@15",
    "CSD@15", "XPD@15", "LVLD@15", "Objectives Stolen", "Damage dealt to turrets",
    "Damage dealt to buildings", "Total heal", "Total Heals On Teammates",
    "Damage self mitigated", "Total Damage Shielded On Teammates", "Time ccing others",
    "Total Time CC Dealt", "Total damage taken", "Total Time Spent Dead",
    "Consumables purchased", "Items Purchased", "Shutdown bounty collected",
    "Shutdown bounty lost"
  ]

  /** The fixed CSV column list, in order. */
  const Columns: seq<string> := GameColumns + StatColumns

  // ---------------------------------------------------------------------
  // The team summary page
  // ---------------------------------------------------------------------

  /** A side's header block: the text of its team link (if any) and its whole text. */
  datatype SideHeader = SideHeader(teamLink: Option<string>, text: string)

  /** The tournament block: the text of its link (if any) and its whole stripped text. */
  datatype TournamentBlock = TournamentBlock(link: Option<string>, text: string)

  /** What the parser finds on the team summary page; `None` is a missing block. */
  datatype TeamPage = TeamPage(
    gameTime: Option<string>,        // the heading inside the game-time block
    patch: Option<string>,           // the patch block
    dateBlock: Option<string>,       // the block holding the date
    tournament: Option<TournamentBlock>,
    blue: Option<SideHeader>,
    red: Option<SideHeader>)

  /** The `team_stats` dictionary. */
  datatype TeamStats = TeamStats(
    blueTeam: string, redTeam: string, blueResult: string, redResult: string,
    gameTime: string, side: string, patch: string, tournament: string, date: string,
    region: string)

  function LastIndexOf(s: string, c: char): (k: int)
    ensures -1 <= k < |s|
    ensures k >= 0 ==> s[k] == c
    ensures forall i :: k < i < |s| ==> s[i] != c
  {
    if s == [] then -1
    else if s[|s| - 1] == c then |s| - 1
    else LastIndexOf(s[..|s| - 1], c)
  }

  /** `k` is the position of the last "-" of `text`. */
  ghost predicate LastDashAt(text: string, k: int) {
    0 <= k < |text| && text[k] == '-' && forall i :: k < i < |text| ==> text[i] != '-'
  }

  /**
   * A side's result: the stripped text after the last "-" of the header text
   * when it has a "-", and "" otherwise.
   */
  function SideResult(text: string): (r: string)
    ensures '-' !in text ==> r == ""
    ensures '-' in text ==> exists k :: LastDashAt(text, k) && r == Strip(text[k + 1..])
  {
    if '-' in text then
      var k := LastIndexOf(text, '-');
      assert LastDashAt(text, k);
      Strip(text[k + 1..])
    else ""
  }

  /** The regular expression `\(([^)]+)\)` matches at `i`, its closing parenthesis at `j`. */
  ghost predicate GroupAt(s: string, i: int, j: int) {
    0 <= i && i + 1 < j < |s| && s[i] == '(' && s[j] == ')'
    && forall k :: i < k < j ==> s[k] != ')'
  }

  ghost predicate HasGroupAt(s: string, i: int) {
    exists j :: GroupAt(s, i, j)
  }

  /** The first ")" at or after `k`, or `|s|` when there is none. */
  function CloseFrom(s: string, k: nat): (j: nat)
    requires k <= |s|
    ensures k <= j <= |s|
    ensures j < |s| ==> s[j] == ')'
    ensures forall m :: k <= m < j ==> s[m] != ')'
    decreases |s| - k
  {
    if k == |s| || s[k] == ')' then k else CloseFrom(s, k + 1)
  }

  /**
   * `re.search(r"\(([^)]+)\)", s).group(1)` looking from index `i` on: the
   * content of the leftmost parenthesised group with a non-empty content.
   */
  function GroupFrom(s: string, i: nat): (r: Option<string>)
    requires i <= |s|
    ensures r.None? ==> forall m :: i <= m < |s| ==> !HasGroupAt(s, m)
    ensures r.Some? ==> exists m, j :: i <= m && GroupAt(s, m, j) && r.value == s[m + 1..j]
                                       && forall m' :: i <= m' < m ==> !HasGroupAt(s, m')
    decreases |s| - i
  {
    if i == |s| then None
    else
      var j := CloseFrom(s, i + 1);
      if s[i] == '(' && i + 1 < j < |s| then
        assert GroupAt(s, i, j);
        Some(s[i + 1..j])
      else
        assert !HasGroupAt(s, i);
        GroupFrom(s, i + 1)
  }

  /** The region: the content of the first "(...)" group of the tournament text. */
  function RegionOf(text: string): Option<string> {
    GroupFrom(text, 0)
  }

  /** `\d{4}-\d{2}-\d{2}` matches at `i`. */
  predicate DateAt(s: string, i: int) {
    0 <= i && i + 10 <= |s|
    && IsDigit(s[i]) && IsDigit(s[i + 1]) && IsDigit(s[i + 2]) && IsDigit(s[i + 3])
    && s[i + 4] == '-' && IsDigit(s[i + 5]) && IsDigit(s[i + 6])
    && s[i + 7] == '-' && IsDigit(s[i + 8]) && IsDigit(s[i + 9])
  }

  /** The leftmost `NNNN-NN-NN` substring of `s` from index `i` on. */
  function DateFrom(s: string, i: nat): (r: Option<string>)
    ensures r.None? ==> forall m :: i <= m ==> !DateAt(s, m)
    ensures r.Some? ==> exists m :: i <= m && DateAt(s, m) && r.value == s[m..m + 10]
                                    && forall m' :: i <= m' < m ==> !DateAt(s, m')
    decreases |s| - i
  {
    if i + 10 > |s| then None
    else if DateAt(s, i) then Some(s[i..i + 10])
    else DateFrom(s, i + 1)
  }

  function DateOf(text: string): Option<string> {
    DateFrom(text, 0)
  }

  /**
   * `get_team_stats` once the page is parsed: every field starts as "";
   * a missing block leaves its fields "", the region is read only when the
   * tournament block has a link, and "Side" is never filled in.
   */
  function TeamStatsOf(p: TeamPage): (t: TeamStats)
    ensures t.side == ""
    ensures p.gameTime.None? ==> t.gameTime == ""
    ensures p.patch.None? ==> t.patch == ""
    ensures t.date != "" ==> p.dateBlock.Some? && DateOf(p.dateBlock.value) == Some(t.date)
    ensures (p.tournament.None? || p.tournament.value.link.None?) ==> t.tournament == "" && t.region == ""
    ensures t.region != "" ==> RegionOf(p.tournament.value.text) == Some(t.region)
    ensures p.blue.None? ==> t.blueTeam == "" && t.blueResult == ""
    ensures p.red.None? ==> t.redTeam == "" && t.redResult == ""
    ensures p.blue.Some? ==> t.blueResult == SideResult(p.blue.value.text)
    ensures p.red.Some? ==> t.redResult == SideResult(p.red.value.text)
  {
    var gameTime := p.gameTime.GetOr("");
    var patch := p.patch.GetOr("");
    var date := if p.dateBlock.Some? then DateOf(p.dateBlock.value).GetOr("") else "";
    var (tournament, region) :=
      match p.tournament
      case Some(TournamentBlock(Some(a), text)) => (a, RegionOf(text).GetOr(""))
      case _ => ("", "");
    var (blueTeam, blueResult) :=
      match p.blue
      case Some(h) => (h.teamLink.GetOr(""), SideResult(h.text))
      case None => ("", "");
    var (redTeam, redResult) :=
      match p.red
      case Some(h) => (h.teamLink.GetOr(""), SideResult(h.text))
      case None => ("", "");
    TeamStats(blueTeam, redTeam, blueResult, redResult, gameTime, "", patch, tournament, date, region)
  }

  /**
   * What each present block contributes: the game time and the patch are
   * their texts, the date the first date in its block, a linked tournament
   * its link and the region of its text, and each team its header's link.
   */
  lemma TeamStatsFields(p: TeamPage)
    ensures var t := TeamStatsOf(p);
            && (p.gameTime.Some? ==> t.gameTime == p.gameTime.value)
            && (p.patch.Some? ==> t.patch == p.patch.value)
            && (p.dateBlock.Some? ==> t.date == DateOf(p.dateBlock.value).GetOr(""))
            && (p.tournament.Some? && p.tournament.value.link.Some? ==>
                  t.tournament == p.tournament.value.link.value && t.region == RegionOf(p.tournament.value.text).GetOr(""))
            && (p.blue.Some? ==> t.blueTeam == p.blue.value.teamLink.GetOr(""))
            && (p.red.Some? ==> t.redTeam == p.red.value.teamLink.GetOr(""))
  {
  }

  // ---------------------------------------------------------------------
  // The full statistics page
  // ---------------------------------------------------------------------

  /**
   * The statistics table: for each header cell, the alt text of its portrait
   * (`None` when the cell has no image or the image no alt text), or no
   * header at all; and the texts of the data cells of every row, the
   * header row included.
   */
  datatype StatsTable = StatsTable(header: Option<seq<Option<string>>>, rows: seq<seq<string>>)

  /** Python's `xs[1:]`. */
  function Rest<T>(xs: seq<T>): seq<T> {
    if xs == [] then [] else xs[1..]
  }

  /** The site's abbreviated portrait names, corrected; every other name passes through. */
  function FixChampion(alt: string): (name: string)
    ensures alt == "K" ==> name == "Ksante"
    ensures alt == "Cho" ==> name == "Chogath"
    ensures alt == "Kai" ==> name == "Kaisa"
    ensures alt == "Rek" ==> name == "Reksai"
    ensures alt !in {"K", "Cho", "Kai", "Rek"} ==> name == alt
  {
    var n := if alt == "K" then "Ksante" else if alt == "Cho" then "Chogath"
             else if alt == "Kai" then "Kaisa" else alt;
    if n == "Rek" then "Reksai" else n
  }

  /** The corrected names of the header cells that carry an alt text, in order. */
  function Portraits(cells: seq<Option<string>>): (cs: seq<string>)
    ensures |cs| <= |cells|
    ensures (forall k :: 0 <= k < |cells| ==> cells[k].Some?) ==>
              |cs| == |cells| && forall k :: 0 <= k < |cells| ==> cs[k] == FixChampion(cells[k].value)
  {
    if cells == [] then []
    else
      var last := cells[|cells| - 1];
      Portraits(cells[..|cells| - 1]) + (if last.Some? then [FixChampion(last.value)] else [])
  }

  lemma {:induction false} PortraitsAppend(a: seq<Option<string>>, b: seq<Option<string>>)
    ensures Portraits(a + b) == Portraits(a) + Portraits(b)
    decreases |b|
  {
    if b != [] {
      var b' := b[..|b| - 1];
      assert (a + b)[..|a + b| - 1] == a + b';
      PortraitsAppend(a, b');
    } else {
      assert a + b == a;
    }
  }

  /** A header cell without an alt text contributes no champion. */
  lemma BareCellContributesNothing(a: seq<Option<string>>, b: seq<Option<string>>)
    ensures Portraits(a + [None] + b) == Portraits(a + b)
  {
    PortraitsAppend(a + [None], b);
    PortraitsAppend(a, [None]);
    var bare: seq<Option<string>> := [None];
    assert bare[..0] == [];
    PortraitsAppend(a, b);
  }

  /** The champion list: the header's cells after the first (a label), or none without a header. */
  function Champions(header: Option<seq<Option<string>>>): seq<string> {
    match header
    case None => []
    case Some(ths) => Portraits(Rest(ths))
  }

  /** Reads the champion names from the header, one cell at a time. */
  method ParseChampions(header: Option<seq<Option<string>>>) returns (champions: seq<string>)
    ensures champions == Champions(header)
  {
    champions := [];
    if header.Some? {
      var ths := Rest(header.value);
      for k := 0 to |ths|
        invariant champions == Portraits(ths[..k])
      {
        assert ths[..k + 1][..k] == ths[..k];
        if ths[k].Some? {
          var name := FixChampion(ths[k].value);
          champions := champions + [name];
        }
      }
      assert ths[..|ths|] == ths;
    }
  }

  function SideOf(i: nat): string {
    if i < 5 then "Blue" else "Red"
  }

  /** The record of the champion in column `i` before the statistics rows are read. */
  function BaseRecord(gameId: nat, t: TeamStats, i: nat, champion: string): Record {
    var side := SideOf(i);
    var team := if side == "Blue" then t.blueTeam else t.redTeam;
    var result := if side == "Blue" then t.blueResult else t.redResult;
    map["GameID" := Num(gameId), "Team" := Str(team), "Result" := Str(result),
        "Game Time" := Str(t.gameTime), "Side" := Str(side), "Patch" := Str(t.patch),
        "Tournament" := Str(t.tournament), "Date" := Str(t.date), "Region" := Str(t.region),
        "Champion" := Str(champion)]
  }

  function InitialRecords(gameId: nat, t: TeamStats, champions: seq<string>): seq<Record> {
    seq(|champions|, i requires 0 <= i < |champions| => BaseRecord(gameId, t, i, champions[i]))
  }

  /** Creates one record per champion, in header order. */
  method InitRecords(gameId: nat, t: TeamStats, champions: seq<string>) returns (recs: seq<Record>)
    ensures recs == InitialRecords(gameId, t, champions)
  {
    recs := [];
    for i := 0 to |champions|
      invariant |recs| == i
      invariant forall m :: 0 <= m < i ==> recs[m] == BaseRecord(gameId, t, m, champions[m])
    {
      recs := recs + [BaseRecord(gameId, t, i, champions[i])];
    }
  }

  /**
   * One statistics row: a row without cells is skipped; otherwise cell j+1
   * goes to record j under the label in cell 0. A row with more cells than
   * records plus one has no record for its last cells (a `KeyError`): `None`.
   */
  function ApplyRow(recs: seq<Record>, cells: seq<string>): Option<seq<Record>> {
    if cells == [] then Some(recs)
    else if |cells| - 1 > |recs| then None
    else Some(seq(|recs|, j requires 0 <= j < |recs| =>
                if j + 1 < |cells| then recs[j][cells[0] := Str(cells[j + 1])] else recs[j]))
  }

  /** The rows applied in order; `None` once a row does not fit. */
  function ApplyRows(recs: seq<Record>, rows: seq<seq<string>>): Option<seq<Record>> {
    if rows == [] then Some(recs)
    else
      match ApplyRows(recs, rows[..|rows| - 1])
      case None => None
      case Some(mid) => ApplyRow(mid, rows[|rows| - 1])
  }

  /** Every row has at most one cell more than there are records. */
  ghost predicate RowsFit(rows: seq<seq<string>>, n: nat) {
    forall r :: 0 <= r < |rows| ==> |rows[r]| <= n + 1
  }

  /** The text the last row labelled `key` with a cell for record `j` puts there. */
  function LastWrite(rows: seq<seq<string>>, j: nat, key: string): Option<string> {
    if rows == [] then None
    else
      var last := rows[|rows| - 1];
      if j + 1 < |last| && last[0] == key then Some(last[j + 1])
      else LastWrite(rows[..|rows| - 1], j, key)
  }

  function Field(r: Record, key: string): Option<Value> {
    if key in r then Some(r[key]) else None
  }

  /**
   * Applying the rows succeeds exactly when every row fits; then there are
   * as many records as before, and each field of record `j` holds the text
   * the last row with that label wrote there, or else what it held before.
   */
  lemma {:induction false} ApplyRowsMeaning(recs: seq<Record>, rows: seq<seq<string>>)
    ensures ApplyRows(recs, rows).Some? <==> RowsFit(rows, |recs|)
    ensures ApplyRows(recs, rows).Some? ==>
              var out := ApplyRows(recs, rows).value;
              && |out| == |recs|
              && forall j, key :: 0 <= j < |out| ==>
                   Field(out[j], key) == match LastWrite(rows, j, key)
                                         case Some(v) => Some(Str(v))
                                         case None => Field(recs[j], key)
  {
    if rows != [] {
      var init := rows[..|rows| - 1];
      var last := rows[|rows| - 1];
      ApplyRowsMeaning(recs, init);
      assert RowsFit(rows, |recs|) <==> RowsFit(init, |recs|) && |last| <= |recs| + 1 by {
        if RowsFit(init, |recs|) && |last| <= |recs| + 1 {
          forall r | 0 <= r < |rows| ensures |rows[r]| <= |recs| + 1 {
            if r < |rows| - 1 { assert rows[r] == init[r]; }
          }
        }
        if RowsFit(rows, |recs|) {
          forall r | 0 <= r < |init| ensures |init[r]| <= |recs| + 1 {
            assert init[r] == rows[r];
          }
        }
      }
    }
  }

  /** A row that does not fit makes every longer prefix fail too. */
  lemma ApplyRowsFailureSticks(recs: seq<Record>, rows: seq<seq<string>>, i: nat)
    requires i <= |rows|
    requires ApplyRows(recs, rows[..i]) == None
    ensures ApplyRows(recs, rows) == None
  {
    ApplyRowsMeaning(recs, rows[..i]);
    ApplyRowsMeaning(recs, rows);
    var r :| 0 <= r < i && |rows[..i][r]| > |recs| + 1;
    assert rows[..i][r] == rows[r];
  }

  /** Reads the statistics rows into the records, cell by cell. */
  method FillStats(init: seq<Record>, rows: seq<seq<string>>) returns (r: Option<seq<Record>>)
    ensures r == ApplyRows(init, rows)
  {
    var recs := init;
    for i := 0 to |rows|
      invariant ApplyRows(init, rows[..i]) == Some(recs)
    {
      assert rows[..i + 1][..i] == rows[..i];
      var cells := rows[i];
      if cells == [] {
        continue;
      }
      var statName := cells[0];
      ghost var before := recs;
      for j := 0 to |cells| - 1
        invariant j <= |recs| == |before|
        invariant forall m :: 0 <= m < |recs| ==>
                    recs[m] == if m < j then before[m][statName := Str(cells[m + 1])] else before[m]
      {
        if j >= |recs| {
          assert ApplyRows(init, rows[..i + 1]) == None;
          ApplyRowsFailureSticks(init, rows, i + 1);
          return None;
        }
        recs := recs[j := recs[j][statName := Str(cells[j + 1])]];
      }
      assert recs == seq(|before|, m requires 0 <= m < |before| =>
        if m + 1 < |cells| then before[m][statName := Str(cells[m + 1])] else before[m]);
      assert ApplyRow(before, cells) == Some(recs);
    }
    assert rows[..|rows|] == rows;
    r := Some(recs);
  }

  /** The records of one game: one per champion, then the statistics rows after the first. */
  function BuildRecords(gameId: nat, t: TeamStats, table: StatsTable): Option<seq<Record>> {
    ApplyRows(InitialRecords(gameId, t, Champions(table.header)), Rest(table.rows))
  }

  /** The fields every record gets before the statistics rows are read. */
  const BaseKeys: set<string> :=
    {"GameID", "Team", "Result", "Game Time", "Side", "Patch", "Tournament", "Date", "Region", "Champion"}

  /** No statistics row with a data cell is labelled like one of the base fields. */
  ghost predicate NoBaseLabels(rows: seq<seq<string>>) {
    forall r :: 0 <= r < |rows| && |rows[r]| > 1 ==> rows[r][0] !in BaseKeys
  }

  lemma {:induction false} NoLabelNoWrite(rows: seq<seq<string>>, j: nat, key: string)
    requires NoBaseLabels(rows) && key in BaseKeys
    ensures LastWrite(rows, j, key) == None
    decreases |rows|
  {
    if rows != [] {
      var init := rows[..|rows| - 1];
      assert NoBaseLabels(init) by {
        forall r | 0 <= r < |init| && |init[r]| > 1 ensures init[r][0] !in BaseKeys {
          assert init[r] == rows[r];
        }
      }
      NoLabelNoWrite(init, j, key);
    }
  }

  /**
   * A game's records are built exactly when no statistics row has more cells
   * than champions plus one, and then there is one record per parsed
   * champion.
   */
  lemma BuildRecordsCount(gameId: nat, t: TeamStats, table: StatsTable)
    ensures BuildRecords(gameId, t, table).Some? <==> RowsFit(Rest(table.rows), |Champions(table.header)|)
    ensures BuildRecords(gameId, t, table).Some? ==>
              |BuildRecords(gameId, t, table).value| == |Champions(table.header)|
  {
    ApplyRowsMeaning(InitialRecords(gameId, t, Champions(table.header)), Rest(table.rows));
  }

  /**
   * Each statistics cell j+1 ends up in record j under its row's label; of
   * several rows with the same label, the last one wins.
   */
  lemma BuildRecordsCells(gameId: nat, t: TeamStats, table: StatsTable, j: nat, key: string)
    requires BuildRecords(gameId, t, table).Some?
    requires j < |BuildRecords(gameId, t, table).value|
    requires LastWrite(Rest(table.rows), j, key).Some?
    ensures Field(BuildRecords(gameId, t, table).value[j], key)
            == Some(Str(LastWrite(Rest(table.rows), j, key).value))
  {
    ApplyRowsMeaning(InitialRecords(gameId, t, Champions(table.header)), Rest(table.rows));
  }

  /**
   * Record `i` carries the game ID and `champions[i]`; it is on the Blue side
   * with the blue team and result when `i < 5`, on the Red side with the red
   * ones otherwise (unless a statistics row is labelled like one of those
   * fields and overwrites it).
   */
  lemma BuildRecordsSides(gameId: nat, t: TeamStats, table: StatsTable, i: nat)
    requires BuildRecords(gameId, t, table).Some?
    requires i < |BuildRecords(gameId, t, table).value|
    requires NoBaseLabels(Rest(table.rows))
    ensures |BuildRecords(gameId, t, table).value| == |Champions(table.header)|
    ensures var r := BuildRecords(gameId, t, table).value[i];
            && Field(r, "GameID") == Some(Num(gameId))
            && Field(r, "Champion") == Some(Str(Champions(table.header)[i]))
            && Field(r, "Side") == Some(Str(if i < 5 then "Blue" else "Red"))
            && Field(r, "Team") == Some(Str(if i < 5 then t.blueTeam else t.redTeam))
            && Field(r, "Result") == Some(Str(if i < 5 then t.blueResult else t.redResult))
  {
    var rows := Rest(table.rows);
    var init := InitialRecords(gameId, t, Champions(table.header));
    ApplyRowsMeaning(init, rows);
    BuildRecordsCount(gameId, t, table);
    var r := BuildRecords(gameId, t, table).value[i];
    forall key | key in BaseKeys
      ensures Field(r, key) == Field(init[i], key)
    {
      NoLabelNoWrite(rows, i, key);
    }
  }

  // ---------------------------------------------------------------------
  // The ID file and the CSV
  // ---------------------------------------------------------------------

  /** The ID one line of the ID file contributes: its stripped text when that is all digits. */
  function LineId(line: string): (ids: set<nat>)
    ensures |ids| <= 1
    ensures forall n :: n in ids <==> IsNumeral(Strip(line)) && n == ParseNat(Strip(line))
  {
    var t := Strip(line);
    if IsNumeral(t) then {ParseNat(t)} else {}
  }

  /** The IDs of the lines of the ID file's text (lines end at "\n"; the last may not). */
  function IdsIn(text: string): set<nat>
    decreases |text|
  {
    var k := IndexOf(text, '\n');
    LineId(text[..k]) + if k < |text| then IdsIn(text[k + 1..]) else {}
  }

  /** `_load_saved_game_ids`: nothing when the file is absent. */
  function SavedIds(file: Option<string>): (ids: set<nat>)
    ensures file.None? ==> ids == {}
    ensures file == Some([]) ==> ids == {}
  {
    match file
    case None => {}
    case Some(text) => IdsIn(text)
  }

  predicate EndsWithNewline(text: string) {
    text == [] || text[|text| - 1] == '\n'
  }

  /** Reading a text made of complete lines followed by more text reads both parts. */
  lemma {:induction false} IdsInAppend(a: string, b: string)
    requires EndsWithNewline(a)
    ensures IdsIn(a + b) == IdsIn(a) + IdsIn(b)
    decreases |a|
  {
    if a != [] {
      var k := IndexOf(a, '\n');
      assert k < |a|;
      assert IndexOf(a + b, '\n') == k by {
        var s := a + b;
        assert s[k] == '\n';
        assert forall i :: 0 <= i < k ==> s[i] == a[i];
        IndexOfIsFirst(s, '\n', k);
      }
      assert (a + b)[..k] == a[..k];
      assert (a + b)[k + 1..] == a[k + 1..] + b;
      IdsInAppend(a[k + 1..], b);
    } else {
      assert a + b == b;
    }
  }

  /** The line `str(id) + "\n"` reads back as exactly `id`. */
  lemma IdLineReadsBack(id: nat)
    ensures IdsIn(NatToString(id) + "\n") == {id}
  {
    var s := NatToString(id);
    NatToStringRoundTrip(id);
    NumeralIsStripped(s);
    var text := s + "\n";
    assert IndexOf(text, '\n') == |s| by {
      assert forall i :: 0 <= i < |s| ==> text[i] == s[i] && IsDigit(s[i]);
      IndexOfIsFirst(text, '\n', |s|);
    }
    assert text[..|s|] == s;
    assert text[|s| + 1..] == [];
    assert IdsIn([]) == {} by {
      assert Strip([]) == [];
    }
  }

  /** Appending the line of `id` to a file of complete lines adds `id` to what it reads back as. */
  lemma IdLineAppended(text: string, id: nat)
    requires EndsWithNewline(text)
    ensures IdsIn(text + NatToString(id) + "\n") == IdsIn(text) + {id}
    ensures EndsWithNewline(text + NatToString(id) + "\n")
  {
    var line := NatToString(id) + "\n";
    assert text + NatToString(id) + "\n" == text + line;
    IdsInAppend(text, line);
    IdLineReadsBack(id);
  }

  /**
   * When the file's last line has no newline, the appended ID is glued onto
   * it: a file holding "5" followed by the line for 7 reads back as {57}.
   */
  lemma AppendAfterUnterminatedLine()
    ensures IdsIn("5" + NatToString(7) + "\n") == {57}
  {
    var text := "5" + NatToString(7) + "\n";
    assert text == "57\n";
    IndexOfIsFirst(text, '\n', 2);
    assert text[..2] == "57";
    NumeralIsStripped("57");
    assert ParseNat("57") == 57 by {
      assert "57"[..1] == "5";
      assert "5"[..0] == [];
    }
    assert text[3..] == [];
    assert Strip([]) == [];
  }

  /** One CSV row: the fixed columns in order, a missing field as "". */
  function CsvRow(r: Record): (row: seq<Value>)
    ensures |row| == |Columns|
    ensures forall c :: 0 <= c < |Columns| ==> row[c] == if Columns[c] in r then r[Columns[c]] else Str("")
  {
    seq(|Columns|, c requires 0 <= c < |Columns| =>
      if Columns[c] in r then r[Columns[c]] else Str(""))
  }

  function CsvRows(recs: seq<Record>): (rows: seq<seq<Value>>)
    ensures |rows| == |recs|
    ensures forall i :: 0 <= i < |recs| ==> rows[i] == CsvRow(recs[i])
  {
    seq(|recs|, i requires 0 <= i < |recs| => CsvRow(recs[i]))
  }

  /** Fields outside the column list never reach the CSV. */
  lemma CsvRowDropsExtraFields(r: Record, extra: Record)
    requires forall k :: k in extra ==> k !in Columns
    ensures CsvRow(r + extra) == CsvRow(r)
  {
    forall c | 0 <= c < |Columns|
      ensures CsvRow(r + extra)[c] == CsvRow(r)[c]
    {
      assert Columns[c] in Columns;
    }
  }

  /**
   * The CSV row of a scraped record carries the game ID in the first column,
   * the side in the fifth and the champion in the tenth.
   */
  lemma CsvRowOfScrapedRecord(r: Record, gameId: nat, side: string, champion: string)
    requires "GameID" in r && r["GameID"] == Num(gameId)
    requires "Side" in r && r["Side"] == Str(side)
    requires "Champion" in r && r["Champion"] == Str(champion)
    ensures CsvRow(r)[0] == Num(gameId)
    ensures CsvRow(r)[4] == Str(side)
    ensures CsvRow(r)[9] == Str(champion)
  {
    assert |GameColumns| == 10;
  }

  /** What one call of `scrape_game` does. */
  datatype Outcome =
    | Skipped                      // the ID was already scraped
    | NoTable                      // the statistics page has no table
    | Crashed                      // a statistics row has more cells than records (KeyError)
    | Scraped(records: seq<Record>)

  function ScrapeOutcome(scraped: set<nat>, gameId: nat, page: TeamPage, stats: Option<StatsTable>): Outcome {
    if gameId in scraped then Skipped
    else match stats
      case None => NoTable
      case Some(table) =>
        match BuildRecords(gameId, TeamStatsOf(page), table)
        case None => Crashed
        case Some(recs) => Scraped(recs)
  }

  /** The scraper: the record buffer, the scraped-ID set and the two files it appends to. */
  class StatsScraper {
    var allData: seq<Record>
    var scrapedIds: set<nat>
    var idText: string
    var csvRows: seq<seq<Value>>

    /** The ID set is what the ID file reads back as, and the file ends with a complete line. */
    ghost predicate Resumable()
      reads this
    {
      scrapedIds == IdsIn(idText) && EndsWithNewline(idText)
    }

    /** Starts with an empty buffer and the IDs read from the ID file (`None`: no file yet). */
    constructor (idFile: Option<string>, csvFile: seq<seq<Value>>)
      ensures allData == [] && csvRows == csvFile
      ensures idText == idFile.GetOr("")
      ensures scrapedIds == SavedIds(idFile)
      ensures EndsWithNewline(idText) ==> Resumable()
    {
      allData := [];
      scrapedIds := SavedIds(idFile);
      idText := idFile.GetOr("");
      csvRows := csvFile;
    }

    /**
     * `scrape_game`: an ID already scraped, or a statistics page without a
     * table, or a row that does not fit, changes nothing; otherwise the
     * game's records are appended to the buffer in index order and the ID is
     * added to the set and appended to the ID file.
     */
    method ScrapeGame(gameId: nat, page: TeamPage, stats: Option<StatsTable>) returns (outcome: Outcome)
      modifies this
      ensures outcome == ScrapeOutcome(old(scrapedIds), gameId, page, stats)
      ensures outcome.Scraped? ==>
                && allData == old(allData) + outcome.records
                && scrapedIds == old(scrapedIds) + {gameId}
                && idText == old(idText) + NatToString(gameId) + "\n"
      ensures !outcome.Scraped? ==>
                allData == old(allData) && scrapedIds == old(scrapedIds) && idText == old(idText)
      ensures csvRows == old(csvRows)
      ensures old(Resumable()) ==> Resumable()
    {
      if gameId in scrapedIds {
        return Skipped;
      }
      var t := TeamStatsOf(page);
      if stats.None? {
        return NoTable;
      }
      var table := stats.value;
      var champions := ParseChampions(table.header);
      var recs := InitRecords(gameId, t, champions);
      var filled := FillStats(recs, Rest(table.rows));
      if filled.None? {
        return Crashed;
      }
      allData := allData + filled.value;
      scrapedIds := scrapedIds + {gameId};
      ghost var oldText := idText;
      idText := idText + NatToString(gameId) + "\n";
      if EndsWithNewline(oldText) {
        IdLineAppended(oldText, gameId);
      }
      outcome := Scraped(filled.value);
    }

    /**
     * `save`: with records buffered, one CSV row per record is appended in
     * buffer order and the buffer is emptied; with none, nothing changes.
     */
    method Save()
      modifies this
      ensures old(allData) == [] ==> csvRows == old(csvRows)
      ensures csvRows == old(csvRows) + CsvRows(old(allData))
      ensures allData == []
      ensures scrapedIds == old(scrapedIds) && idText == old(idText)
    {
      if allData == [] {
        return;
      }
      csvRows := csvRows + CsvRows(allData);
      allData := [];
    }
  }
}
