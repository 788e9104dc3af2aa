# lolesports-predictor: the collector and the predictor, modelled in Dafny

This project models two deterministic pieces of a League of Legends esports match predictor.

**The statistics collector** (`data/scraper.py`) covers:
- `StatsScraper`: a buffer of per-champion game records, the set of game IDs already scraped, the ID file it appends to, and the CSV it flushes to.
- The string rules that read a game's team summary page: the result after the last "-", the region in the first "(...)" group, and the first `NNNN-NN-NN` date.
- The link helpers that keep game links and collect game IDs.

**The match predictor** (`LolPredictor` in `models/predictor.py`) covers:
- The per-player historical averages.
- The Elo lookup.
- The assembly of the feature row `predict_match` hands to a classifier, then reindexing to the stored column schema and the 0.5 winner threshold.
- The sorted listings of teams, champions, players, a team's players, regions and patches.

Web pages are given already parsed:
- a `TeamPage` holds the text of each block the parser looks for;
- a `StatsTable` holds the header portraits' alt texts and the cell texts of the rows;
- the series menu of a game link is a function from the link to its hrefs.

The ID file is held as its text and the CSV as the list of rows appended to it.

The predictor's loaded artifacts are values:
- a label encoder is its list of classes;
- a one-hot encoder is a table from category to feature vector;
- the Elo table is a map;
- the historical dataset is a sequence of rows, each mapping a column name to a number;
- each classifier is a function from the reindexed row to the probability of a Blue win.

Modules:
- `Wrappers`: `Option` and `Result`.
- `Text`: Python's `strip`, `isdigit`, `int` and `str` on naturals, `replace`, `lower` and string order.
- `Sorting`: `sorted` as insertion sort. It is proved ordered, a permutation, and unique for a total order.
- `Scraper`: the `StatsScraper` class and record assembly.
- `Links`: `get_games_links` and `get_game_id`.
- `Predictor`: `LolPredictor`.
- `FeatureValues`: the values the feature map ends up holding. The feature names of different sides, roles and statistics are pairwise different, so no later write replaces an earlier one. The one-hot features are written first, so no assumption about their names is needed.

Each method that loops or changes state is proved against a specification function, and the properties are proved about those functions.

The project's documented design and its code disagree on three points. The model follows the code:
- `get_game_id` does not remove duplicates across links. It only drops series-menu IDs equal to the link's own ID, so the result is sorted but may repeat IDs.
- `get_games_links` rewrites game-page links to summary-page links, not the reverse.
- `get_regions` does not remove duplicates either.

## Model

| member | source | states |
|---|---|---|
| Text.Strip | data/scraper.py:35 | `strip()` returns the infix left once leading and trailing whitespace (Python's `isspace` set) is removed. It starts and ends with a non-space, and a string that is already stripped comes back unchanged |
| Text.NumeralIsStripped | data/scraper.py:35 | a digit string is unchanged by `strip()` |
| Text.NatToStringRoundTrip | data/scraper.py:116 | `str(n)` is a non-empty digit string with no superfluous leading zero, and `int` reads it back as `n` |
| Text.ReplaceAllUnchanged | data/scraper.py:246 | `replace` leaves a string in which the pattern does not occur unchanged |
| Text.ReplaceAllAtEnd | data/scraper.py:246 | when a string ends with the pattern and no other occurrence overlaps that final one, `replace` on it is `replace` on the part before the final occurrence followed by the replacement |
| Text.LowerMeaning | models/predictor.py:31 | `lower()` keeps the length, turns each capital into its small letter, keeps every other character, and leaves no capital |
| Text.LowerIdempotent | models/predictor.py:59 | lowercasing twice is the same as lowercasing once |
| Text.StrLeTotal | models/predictor.py:127 | Python's string `<=` relates any two strings one way or the other |
| Text.StrLeAntisymmetric | models/predictor.py:127 | two strings that are each `<=` the other are equal |
| Text.StrLeTransitive | models/predictor.py:127 | string `<=` is transitive |
| Sorting.Insert | models/predictor.py:127 | inserting into a sorted list keeps it sorted and adds exactly one element |
| Sorting.Sort | models/predictor.py:127 | `sorted` returns an ordered permutation of its input |
| Sorting.SortedUnique | models/predictor.py:127 | under a total order, two sorted permutations of the same multiset are equal, so a sorted listing does not depend on input order |
| Scraper.SideResult | data/scraper.py:182-183 | a side's result is the stripped text after the last "-" when the header has a "-", and "" otherwise |
| Scraper.GroupFrom | data/scraper.py:172-174 | the region search finds the content of the leftmost "(...)" group with non-empty content, or none when no position starts one |
| Scraper.DateFrom | data/scraper.py:161-163 | the date search finds the leftmost `NNNN-NN-NN` substring, or none when there is none |
| Scraper.TeamStatsOf | data/scraper.py:143-192 | the side is "", and a missing block leaves its fields "". Tournament and region stay "" unless the tournament block has a link. A non-empty date or region is the first match in its text. Each result is the header's `SideResult` |
| Scraper.TeamStatsFields | data/scraper.py:146-192 | each present block fills its fields: game time and patch are their texts, the date the first `NNNN-NN-NN` of its block (or ""), a linked tournament its link and the first "(...)" group of its text (or ""), and each team its header's link (or "") |
| Scraper.FixChampion | data/scraper.py:70-78 | "K", "Cho", "Kai" and "Rek" become "Ksante", "Chogath", "Kaisa" and "Reksai"; every other alt text passes through unchanged |
| Scraper.Portraits | data/scraper.py:66-79 | when every header cell has an alt text, there is one corrected name per cell, in order; there are never more names than cells |
| Scraper.BareCellContributesNothing | data/scraper.py:68-69 | a header cell without an image or alt text contributes no champion |
| Scraper.ParseChampions | data/scraper.py:62-79 | the champion list is the corrected alt texts of the header cells after the first label cell; no header gives no champions |
| Scraper.InitRecords | data/scraper.py:86-100 | one record per champion in header order. Record i has the game ID, the summary fields, `champions[i]`, side Blue with the blue team and result when i < 5, and Red otherwise |
| Scraper.FillStats | data/scraper.py:103-111 | the cell-by-cell loop over the statistics rows computes `ApplyRows`, including the failure when a row has more cells than records plus one |
| Scraper.ApplyRowsMeaning | data/scraper.py:103-111 | applying the rows succeeds exactly when every row has at most one cell more than there are records. The record count is kept. Each field of record j holds the text the last row with that label wrote there, or what it held before |
| Scraper.ApplyRowsFailureSticks | data/scraper.py:110-111 | once a row does not fit, the whole scrape fails |
| Scraper.BuildRecordsCount | data/scraper.py:86-111 | a game's records are built exactly when every statistics row fits, and then there is one record per parsed champion |
| Scraper.BuildRecordsCells | data/scraper.py:108-111 | cell j+1 of a row ends up in record j under the label in cell 0; the last row with a given label wins |
| Scraper.BuildRecordsSides | data/scraper.py:86-100 | record i carries the game ID and `champions[i]`, and the Blue side, team and result when i < 5 (Red otherwise), unless a statistics row overwrites those fields |
| Scraper.LineId | data/scraper.py:35 | a line of the ID file contributes exactly the integer of its stripped text when that text is a non-empty digit string, and nothing otherwise |
| Scraper.SavedIds | data/scraper.py:31-35 | an absent or empty ID file gives the empty set |
| Scraper.IdsInAppend | data/scraper.py:34-35 | reading a file of complete lines followed by more text reads both parts |
| Scraper.IdLineReadsBack | data/scraper.py:115-116 | the line `str(id) + "\n"` reads back as exactly `{id}` |
| Scraper.IdLineAppended | data/scraper.py:114-116 | appending an ID's line to a file of complete lines adds that ID to what the file reads back as, and the file still ends with a complete line |
| Scraper.AppendAfterUnterminatedLine | data/scraper.py:115-116 | when the file's last line has no newline, the appended ID is glued onto it: "5" followed by the line for 7 reads back as {57} |
| Scraper.CsvRow | data/scraper.py:126-131 | a CSV row has one cell per fixed column, in column order: the record's value for that column, or "" when the record lacks it |
| Scraper.CsvRowDropsExtraFields | data/scraper.py:127-131 | fields outside the column list never reach the CSV: adding them leaves the row unchanged |
| Scraper.CsvRowOfScrapedRecord | data/scraper.py:127-131 | a scraped record's row has the game ID in the first column, the side in the fifth and the champion in the tenth |
| Scraper.CsvRows | data/scraper.py:124-132 | one CSV row per buffered record, in buffer order, row i being record i's `CsvRow` |
| Scraper.StatsScraper.constructor | data/scraper.py:14-28 | the buffer starts empty. The ID set is what the ID file reads back as (empty without a file). When the file ends with a complete line, the set and the file agree |
| Scraper.StatsScraper.ScrapeGame | data/scraper.py:43-116 | an ID already scraped, a page without a table, or a row that does not fit changes nothing. Otherwise the game's records are appended in index order, the ID is added to the set, and its line is appended to the ID file. The CSV is untouched, and the set and file keep agreeing |
| Scraper.StatsScraper.Save | data/scraper.py:119-134 | with an empty buffer nothing changes. Otherwise one CSV row per buffered record is appended in buffer order and the buffer is emptied; the ID set and file are untouched |
| Links.GamesLinks | data/scraper.py:230-248 | no table gives no links; otherwise the kept links, in table order |
| Links.GameLinkMeaning | data/scraper.py:244-246 | an href is kept exactly when it ends with "/page-game/" or "/page-summary/". A summary link is kept as is. A game link (not ending with the game suffix twice) becomes `replace` applied to the part before its final "/page-game/", followed by "/page-summary/" |
| Links.GameSuffixOverlap | data/scraper.py:246 | an occurrence of "/page-game/" overlapping a final one means the href ends with "/page-game/page-game/" |
| Links.GameLinkKeepsPrefix | data/scraper.py:245-246 | a game link whose part before the suffix holds no "/page-game/" keeps that part and only swaps the suffix for "/page-summary/" |
| Links.DigitRun | data/scraper.py:257 | the `\d+` group takes the maximal run of digits at its position |
| Links.FirstIdFromMeaning | data/scraper.py:257 | the ID search finds nothing exactly when no position matches; otherwise it gives the ID of the leftmost match |
| Links.NatLeIsTotalOrder | data/scraper.py:277 | integer order is total, antisymmetric and transitive |
| Links.GameIds | data/scraper.py:251-277 | the result is ascending and is a permutation of the IDs collected link by link: each game link's own ID, then its menu's IDs that differ from it. Duplicates are kept |
| Links.SiblingIdsMembers | data/scraper.py:268-275 | an ID comes from a link's series menu exactly when it differs from the link's own ID and some menu href names it |
| Links.LinkIdsMembers | data/scraper.py:255-275 | the IDs one link contributes are exactly its own and the differing IDs of its menu, and none when it names no game |
| Links.GameIdsMembers | data/scraper.py:251-277 | an ID is collected exactly when some link contributes it |
| Links.NonGameLinkIgnored | data/scraper.py:257-259 | a link that names no game leaves the collected IDs unchanged |
| Predictor.EveryRoleListed | models/predictor.py:89 | the five-role list covers every role |
| Predictor.Transform | models/predictor.py:31 | a label encoder knows a label exactly when it is among its classes, and its code is the label's index; an unknown label is an error |
| Predictor.DecodeTransform | models/predictor.py:148 | decoding the code of a known label gives the label back |
| Predictor.TransformDecode | models/predictor.py:148 | with distinct classes, every decodable code is the code of its label |
| Predictor.Matching | models/predictor.py:32-33 | the filtered games are exactly the dataset's rows whose player column holds the player's code |
| Predictor.MatchingCounts | models/predictor.py:32-33 | a row passing the filter is kept as many times as the dataset holds it, and any other row is dropped |
| Predictor.MeanWithin | models/predictor.py:53 | a mean lies between any bounds of its values |
| Predictor.PlayerHistoryMeaning | models/predictor.py:23-55 | the history exists exactly when the lowercased name is known to the role's encoder. It then has exactly the six statistics as keys, each with the average `StatAverage` describes for the player's code |
| Predictor.AddAveragesMeaning | models/predictor.py:35-53 | writing the averages of a list of statistics sets each listed statistic to its average and keeps every other entry |
| Predictor.HistoricalStats | models/predictor.py:23-55 | the statistic-by-statistic loop computes `PlayerHistory`, including the unknown-player error |
| Predictor.AverageStats | models/predictor.py:32-54 | averaging statistic after statistic, from games found once, gives the map of averages |
| Predictor.AverageStat | models/predictor.py:36-53 | one statistic's average is the mean of the Blue-side column over Blue games followed by the Red-side column over Red games, or the fallback with no games |
| Predictor.NoGamesFallback | models/predictor.py:46-50 | a player with no game in the role on either side gets the mean of the whole Blue column's mean and the whole Red column's mean |
| Predictor.NoneMatching | models/predictor.py:32-33 | a filter no row passes gives no games |
| Predictor.GamesAverage | models/predictor.py:42-53 | a player with at least one game gets the mean over exactly their games, Blue games first |
| Predictor.ColumnWithinSeq | models/predictor.py:43-45 | bounds on a column's cells are bounds on its value list |
| Predictor.StatAverageWithin | models/predictor.py:42-53 | a historical average never leaves the range of the statistic's values in the dataset, from games or from the fallback |
| Predictor.TeamElo | models/predictor.py:58-60 | the Elo rating exists exactly when the lowercased team is known and its code has a rating, and is that rating |
| Predictor.RoleHistoryKeys | models/predictor.py:99-101 | a role's history step writes exactly that role's six `historical_avg` features |
| Predictor.WriteMatchContext | models/predictor.py:66-82 | the patch's and region's one-hot loops and both Elo lookups compute the match-wide part of the feature map |
| Predictor.WriteRole | models/predictor.py:89-101 | one role's step writes the encoded player and champion and the player's six averages, and fails on an unknown name |
| Predictor.WriteStats | models/predictor.py:100-101 | the loop over a player's averages writes each under its feature name |
| Predictor.WriteSide | models/predictor.py:85-101 | one side's step writes the encoded team and then its five roles |
| Predictor.WriteRoles | models/predictor.py:89-101 | the loop over the roles computes their features role after role, stopping at the first failure |
| Predictor.AssembleFeatures | models/predictor.py:63-101 | the step-by-step assembly over both colours computes the specified feature map `Assembled` |
| Predictor.RoleFeaturesSucceeds | models/predictor.py:90-99 | a role's step succeeds exactly when its player and champion, lowercased, are known to the role's encoders |
| Predictor.RolesFeaturesSucceed | models/predictor.py:89-101 | when every role's pick is known, the roles' assembly succeeds |
| Predictor.RolesFeaturesFail | models/predictor.py:89-101 | one unknown pick makes the roles' assembly fail |
| Predictor.RolesFeaturesSucceeds | models/predictor.py:89-101 | the roles' assembly succeeds exactly when every role's pick is known |
| Predictor.AllRolesKnown | models/predictor.py:89 | every pick of the five listed roles is known exactly when every role's pick is |
| Predictor.SideFeaturesSucceeds | models/predictor.py:85-101 | a side's assembly succeeds exactly when its team and all its picks are known |
| Predictor.SidesFeaturesSucceeds | models/predictor.py:85-101 | both sides' assembly succeeds exactly when both teams are fully known |
| Predictor.MatchContextSucceeds | models/predictor.py:66-82 | the match-wide part succeeds exactly when the patch (as given) and the lowercased region are known and both teams have a rating |
| Predictor.AssembledSucceeds | models/predictor.py:59-101 | the assembly succeeds exactly when every name of the match is known and both teams have a rating; any unknown name fails the prediction, with no default |
| Predictor.WriteAllKeys | models/predictor.py:70-78 | a one-hot loop writes exactly its feature names |
| Predictor.WriteHistoryKeys | models/predictor.py:100-101 | writing a player's averages adds exactly their feature names |
| Predictor.RoleFeaturesKeys | models/predictor.py:94-101 | one role adds exactly its player, champion and six `historical_avg` features |
| Predictor.RolesFeaturesKeys | models/predictor.py:89-101 | the roles add exactly their features |
| Predictor.SideFeaturesKeys | models/predictor.py:85-101 | a side adds exactly its team code and its five roles' features |
| Predictor.SidesFeaturesKeys | models/predictor.py:85-101 | the sides add exactly their features |
| Predictor.MatchContextKeys | models/predictor.py:66-82 | the match-wide part writes exactly the patch's and region's one-hot features and both Elo ratings |
| Predictor.BothSidesKeys | models/predictor.py:85 | the features of the two colours are Blue's and Red's |
| Predictor.AssembledKeys | models/predictor.py:66-101 | before reindexing, the feature map holds exactly the one-hot features, both Elo ratings, and, per side, the team code and, per role, the player, the champion and six averages |
| FeatureValues.MatchContextElo | models/predictor.py:80-82 | after the match-wide part each side's rating feature holds that team's Elo rating |
| FeatureValues.PrefixOwner | models/predictor.py:94-101 | a feature name carries the `colour_ROLE_` prefix of at most one side and role |
| FeatureValues.SideKeysApart | models/predictor.py:85-101 | Blue's and Red's features have different names, so the Red step cannot overwrite a Blue feature |
| FeatureValues.WriteHistoryValue | models/predictor.py:99-101 | each listed statistic's average ends up under its own `historical_avg` feature |
| FeatureValues.RoleFeaturesValues | models/predictor.py:94-101 | one role's step writes the player's and champion's codes and, per statistic, the player's average |
| FeatureValues.RolesFeaturesValues | models/predictor.py:89-101 | after the roles' loop every listed role's features hold their values: a later role never overwrites an earlier one |
| FeatureValues.SideFeaturesValues | models/predictor.py:85-101 | after a side's step the map holds its team code and, for each role, the player and champion codes and the six averages |
| FeatureValues.AssembledValues | models/predictor.py:80-101 | in the assembled map, each side's rating feature holds its team's Elo rating and its team feature the team's code; per role, the player and champion features hold their codes and each historical-average feature the player's average of that statistic |
| Predictor.Reindex | models/predictor.py:105 | the reindexed row has one entry per stored column |
| Predictor.ReindexSchema | models/predictor.py:104-105 | entry i is named after stored column i. A column the map holds keeps its value and any other is 0.0 |
| Predictor.ReindexDiscardsExtras | models/predictor.py:105 | assembled entries outside the stored columns cannot change the reindexed row |
| Predictor.WinnerThreshold | models/predictor.py:110 | Blue is predicted exactly when its probability is strictly above 0.5, that is, above Red's; exactly 0.5 goes to Red |
| Predictor.PredictMatch | models/predictor.py:63-115 | the prediction fails exactly when a name is unknown. Otherwise the classifier sees the assembled features reindexed to the stored columns, and the winner is Blue exactly when the probability is above 0.5 |
| Predictor.PredictVoting | models/predictor.py:118-119 | `predict_match` with the voting ensemble |
| Predictor.PredictElastic | models/predictor.py:121-122 | `predict_match` with the elastic-net model |
| Predictor.StrLeIsTotalOrder | models/predictor.py:127 | string order is a total order |
| Predictor.SortedNames | models/predictor.py:127 | `sorted` on names returns them ordered, with the same multiplicities |
| Predictor.SortedNamesCanonical | models/predictor.py:147-149 | a sorted listing depends only on which names there are, not on the order a set is walked |
| Predictor.Teams | models/predictor.py:126-127 | `get_teams` lists the team vocabulary, sorted |
| Predictor.Champions | models/predictor.py:130-131 | `get_champions` lists the role's champion vocabulary, sorted |
| Predictor.Players | models/predictor.py:134-135 | `get_players` lists the role's player vocabulary, sorted |
| Predictor.DecodeSorted | models/predictor.py:147-149 | decoding a set of player codes succeeds exactly when every code decodes, and then lists their names sorted, one per code |
| Predictor.SortedList | models/predictor.py:149 | `sorted` keeps the length and exactly the names |
| Predictor.TeamPlayers | models/predictor.py:138-151 | it succeeds exactly when the lowercased team is known and, for each of the five roles, every code of a player who played that role for the team decodes. On success there is an entry for each of the five roles, each the sorted decoded union of the team's Blue-side and Red-side players in that role |
| Predictor.PlayersByRole | models/predictor.py:142-151 | the loop over the roles succeeds exactly when every listed role's player codes all decode, and then gives each listed role its sorted decoded players |
| Predictor.Regions | models/predictor.py:152-163 | `get_regions` is "cn" plus the suffix of every "Region_" column, sorted, with duplicates kept |
| Predictor.RegionColumnNamesRegion | models/predictor.py:159-161 | the column "Region_" + name yields name |
| Predictor.RegionNamesHas | models/predictor.py:159-161 | every "Region_" column contributes its region name |
| Predictor.RegionsListed | models/predictor.py:152-163 | the region list always holds "cn" and the region of every "Region_" column |
| Predictor.PatchGeIsTotalOrder | models/predictor.py:176 | the descending (major, minor) order is a total order |
| Predictor.ParsePatchRoundTrip | models/predictor.py:173-176 | a patch written as "major.minor" reads back as itself |
| Predictor.SortedPatches | models/predictor.py:176 | patches are listed newest first, a permutation of the input |
| Predictor.Patches | models/predictor.py:165-177 | `get_patches` fails on a "Patch_" column that is not a patch number. Otherwise it is 15.1 plus every "Patch_" column's patch, newest first |
| Predictor.PatchNamesFailureSticks | models/predictor.py:172-175 | one unparsable "Patch_" column makes the whole listing fail |
| Predictor.PatchNamesMeaning | models/predictor.py:167-175 | the patch list parses exactly when every "Patch_" column does |
| Predictor.DefaultPatchListed | models/predictor.py:169-177 | the patch list always holds 15.1, and every other entry comes from a column |

## Left out

**Network, browser, files and process**
- Fetching and HTML parsing (`requests`, BeautifulSoup, Selenium) are not modelled. Pages arrive as their parsed contents, and a game link's series menu is a function parameter. `get_matchlist_links` is Selenium only and is not part of this model.
- `main` is orchestration only and is not modelled: it takes the last tournament, batches saves by ten and sleeps a random time. `time.sleep` and `random` are out too.
- The request headers are not modelled.
- Real file and CSV I/O are not modelled. The ID file is its text and the CSV the list of rows appended after its header.
- `os.path.exists` and `_ensure_csv_headers` are not modelled beyond the optional ID file.
- Universal-newline translation of "\r\n" is not modelled.
- Python's `print` messages are left out.

**Python semantics**
- `isdigit` and `int` accept only ASCII digits here. Python also accepts other Unicode decimal digits.
- `lower()` only maps ASCII capitals.
- The regular expressions' `\d` (`DateAt`, `DigitRun`) matches only ASCII digits here. Python's `re` also matches other Unicode decimal digits.
- A lone "\r" is not treated as a line ending when the ID file is read.
- Game IDs are natural numbers, since they come from `\d+`. Negative IDs are not modelled.

**Predictor data and artifacts**
- Scikit-learn encoders, `predict_proba` and `joblib` loading are opaque artifacts. An encoder is its class list or its table; a classifier is a function parameter.
- The one-hot encoders' handling of unknown categories is taken to be an error.
- Pandas internals are not modelled. `mean` and `sum(...)/len(...)` are exact `real` arithmetic, with no floating-point rounding.
- The predictor requires a non-empty historical dataset (`Loaded`, or `rows != []`), because pandas yields NaN means on an empty one.
- A dataset column the predictor reads but the file lacks (a pandas `KeyError`) reads as 0.0 here.
- Patches are (major, minor) natural-number pairs. `float` parsing of a "Patch_" suffix, and the "15.10" / "15.1" collision it causes, are not reproduced. A suffix that is not a patch number is an error, as `float` raises one.
- Predictor.WriteRole: the player's averages are computed from the player code the step has just encoded. The source's `get_player_historical_stats` encodes the same lowercased name again, which gives the same code.
- Predictor.TeamPlayers: the model decodes the set of codes in whatever order it walks it. The result is the same for every order (`SortedNamesCanonical`). The order Python walks a set is not modelled.

**Outside the model**
- `create_match_info` is the `MatchInfo` datatype.
- `print_prediction` only formats output and is left out.
- app.py (the Streamlit interface) and teamstatsscraper.py are not part of this model.
