/**
 * The rule logic of the missions subsystem: which missions the list offers
 * (`getAvailableMissions`), whether the current mission may start
 * (`checkMissionRequirements`), the inventory default-fill, the mission-stats
 * initialisation, the status and button captions, the scene-count estimate,
 * item-name formatting and the spotted/no-scene dispatch that opens
 * `showMissionScene`.
 *
 * Parameters here: `playerStats`, `missionStatus` and `findScene`'s result,
 * which are defined outside this file; the file's own globals `missions`
 * (filled by `loadMissions`), `currentMission` and `missionState.spotted`,
 * which the modelled functions only read; and the saved inventory.
 */
module Missions {
  import opened Optional
  import JsText

  /** Ranks from lowest to highest, as `rankOrder` lists them. */
  const RankOrder: seq<string> := ["apprentice", "shinobi", "assassin", "ninja", "masterNinja", "grandMaster"]

  /**
   * A mission as the filter sees it. `minCoins` is `requirements?.minCoins`
   * (`None` when either is missing); a missing `prerequisites` array reads
   * like an empty one; `story` is the list of scenes, `None` when missing.
   */
  datatype Mission = Mission(
    id: string,
    requiredRank: string,
    minCoins: Option<int>,
    prerequisites: seq<string>,
    story: Option<seq<string>>)

  /** The `playerStats.missions` record. */
  datatype MissionRecord = MissionRecord(
    attempted: int, completed: int, failed: int, perfectStealth: int,
    totalKills: int, itemsUsed: int, favoriteItem: Option<string>, bestMission: Option<string>)

  /** The parts of `playerStats` the missions code reads or writes. */
  datatype PlayerStats = PlayerStats(currentRank: string, coins: int, missions: Option<MissionRecord>)

  /** `missionStatus[id]`: `undefined` for a mission never started. */
  function StatusOf(missionStatus: map<string, string>, id: string): Option<string>
  {
    if id in missionStatus then Some(missionStatus[id]) else None
  }

  // ---------------------------------------------------------------------
  // Availability rules
  // ---------------------------------------------------------------------

  /** The rank check: the required rank's index in `rankOrder` does not exceed the player's (-1 when absent). */
  predicate RankAllows(m: Mission, player: PlayerStats)
  {
    JsText.IndexOf(RankOrder, m.requiredRank) <= JsText.IndexOf(RankOrder, player.currentRank)
  }

  /** A completed or failed mission is always listed again for replay. */
  predicate IsReplay(status: Option<string>)
  {
    status == Some("completed") || status == Some("failed")
  }

  /** `minCoins` is truthy: present and non-zero. */
  predicate HasCoinMinimum(m: Mission)
  {
    m.minCoins.Some? && m.minCoins.value != 0
  }

  /** The coin check: no truthy minimum, or enough coins. */
  predicate CoinsAllow(m: Mission, player: PlayerStats)
  {
    !(HasCoinMinimum(m) && player.coins < m.minCoins.value)
  }

  /** Every prerequisite has status 'completed'. */
  predicate PrerequisitesMet(prerequisites: seq<string>, missionStatus: map<string, string>)
  {
    forall k :: 0 <= k < |prerequisites| ==> StatusOf(missionStatus, prerequisites[k]) == Some("completed")
  }

  /** The filter callback of `getAvailableMissions`. */
  predicate IsAvailable(m: Mission, player: PlayerStats, missionStatus: map<string, string>)
  {
    && RankAllows(m, player)
    && (|| IsReplay(StatusOf(missionStatus, m.id))
        || (CoinsAllow(m, player) && PrerequisitesMet(m.prerequisites, missionStatus)))
  }

  /** What `checkMissionRequirements` tests of a mission: the three checks, no replay bypass. */
  predicate MeetsRequirements(m: Mission, player: PlayerStats, missionStatus: map<string, string>)
  {
    RankAllows(m, player) && CoinsAllow(m, player) && PrerequisitesMet(m.prerequisites, missionStatus)
  }

  /** `missions.filter(IsAvailable)`. */
  function FilterAvailable(missions: seq<Mission>, player: PlayerStats, missionStatus: map<string, string>): seq<Mission>
  {
    if missions == [] then []
    else
      var last := missions[|missions| - 1];
      FilterAvailable(missions[..|missions| - 1], player, missionStatus)
        + (if IsAvailable(last, player, missionStatus) then [last] else [])
  }

  /** `a` is `b` with some elements dropped and the rest kept in order. */
  predicate IsSubsequence<T(==)>(a: seq<T>, b: seq<T>)
    decreases |b|
  {
    || a == []
    || (&& b != []
        && (|| (a != [] && a[|a| - 1] == b[|b| - 1] && IsSubsequence(a[..|a| - 1], b[..|b| - 1]))
            || IsSubsequence(a, b[..|b| - 1])))
  }

  // ---------------------------------------------------------------------
  // getAvailableMissions / checkMissionRequirements
  // ---------------------------------------------------------------------

  /** The `for...of` loop over prerequisites, returning false at the first one not completed. */
  method AllPrerequisitesCompleted(prerequisites: seq<string>, missionStatus: map<string, string>) returns (ok: bool)
    ensures ok == PrerequisitesMet(prerequisites, missionStatus)
  {
    for k := 0 to |prerequisites|
      invariant forall j :: 0 <= j < k ==> StatusOf(missionStatus, prerequisites[j]) == Some("completed")
    {
      if StatusOf(missionStatus, prerequisites[k]) != Some("completed") {
        return false;
      }
    }
    return true;
  }

  /** The filter callback, with its early returns in source order. */
  method MissionPassesFilter(m: Mission, player: PlayerStats, missionStatus: map<string, string>) returns (keep: bool)
    ensures keep == IsAvailable(m, player, missionStatus)
  {
    var playerRankIndex := JsText.IndexOf(RankOrder, player.currentRank);
    var missionRankIndex := JsText.IndexOf(RankOrder, m.requiredRank);
    if missionRankIndex > playerRankIndex {
      return false;
    }
    var status := StatusOf(missionStatus, m.id);
    if status == Some("completed") || status == Some("failed") {
      return true;
    }
    if HasCoinMinimum(m) && player.coins < m.minCoins.value {
      return false;
    }
    keep := AllPrerequisitesCompleted(m.prerequisites, missionStatus);
  }

  /** `getAvailableMissions()`: the missions that pass the filter, in list order. */
  method GetAvailableMissions(missions: seq<Mission>, player: PlayerStats, missionStatus: map<string, string>)
    returns (available: seq<Mission>)
    ensures available == FilterAvailable(missions, player, missionStatus)
  {
    available := [];
    for i := 0 to |missions|
      invariant available == FilterAvailable(missions[..i], player, missionStatus)
    {
      var keep := MissionPassesFilter(missions[i], player, missionStatus);
      assert missions[..i + 1][..i] == missions[..i];
      if keep {
        available := available + [missions[i]];
      }
    }
    assert missions[..|missions|] == missions;
  }

  /**
   * `checkMissionRequirements()`: false with no current mission, otherwise
   * the rank, coin and prerequisite checks, with no replay bypass.
   */
  method CheckMissionRequirements(currentMission: Option<Mission>, player: PlayerStats, missionStatus: map<string, string>)
    returns (ok: bool)
    ensures ok <==> currentMission.Some? && MeetsRequirements(currentMission.value, player, missionStatus)
  {
    if currentMission.None? {
      return false;
    }
    var m := currentMission.value;
    var playerRankIndex := JsText.IndexOf(RankOrder, player.currentRank);
    var missionRankIndex := JsText.IndexOf(RankOrder, m.requiredRank);
    if missionRankIndex > playerRankIndex {
      return false;
    }
    if HasCoinMinimum(m) && player.coins < m.minCoins.value {
      return false;
    }
    ok := AllPrerequisitesCompleted(m.prerequisites, missionStatus);
  }

  // ---------------------------------------------------------------------
  // Properties of the filter
  // ---------------------------------------------------------------------

  /** The filter keeps a subsequence of the missions, in their original order. */
  lemma {:induction false} FilterIsSubsequence(missions: seq<Mission>, player: PlayerStats, missionStatus: map<string, string>)
    ensures IsSubsequence(FilterAvailable(missions, player, missionStatus), missions)
  {
    if missions != [] {
      var init := missions[..|missions| - 1];
      FilterIsSubsequence(init, player, missionStatus);
      var r := FilterAvailable(missions, player, missionStatus);
      var r0 := FilterAvailable(init, player, missionStatus);
      if IsAvailable(missions[|missions| - 1], player, missionStatus) {
        assert r == r0 + [missions[|missions| - 1]];
        assert r[..|r| - 1] == r0 && r[|r| - 1] == missions[|missions| - 1];
        assert IsSubsequence(r[..|r| - 1], missions[..|missions| - 1]);
      } else {
        assert r == r0;
        assert IsSubsequence(r, missions[..|missions| - 1]);
      }
    }
  }

  /** Appending one mission appends it to the result exactly when it passes the filter. */
  lemma FilterSnoc(init: seq<Mission>, last: Mission, player: PlayerStats, missionStatus: map<string, string>)
    ensures FilterAvailable(init + [last], player, missionStatus)
      == FilterAvailable(init, player, missionStatus) + (if IsAvailable(last, player, missionStatus) then [last] else [])
  {
    assert (init + [last])[..|init|] == init;
  }

  /** A mission is in the result exactly when it is in the list and passes the filter. */
  lemma {:induction false} FilterMembership(missions: seq<Mission>, player: PlayerStats, missionStatus: map<string, string>, m: Mission)
    ensures m in FilterAvailable(missions, player, missionStatus) <==> m in missions && IsAvailable(m, player, missionStatus)
  {
    if missions != [] {
      var init := missions[..|missions| - 1];
      var last := missions[|missions| - 1];
      assert missions == init + [last];
      FilterMembership(init, player, missionStatus, m);
      FilterSnoc(init, last, player, missionStatus);
      var keep := IsAvailable(last, player, missionStatus);
      var r0 := FilterAvailable(init, player, missionStatus);
      assert m in r0 + (if keep then [last] else []) <==> m in r0 || (keep && m == last);
      assert m in init + [last] <==> m in init || m == last;
    }
  }

  /**
   * A mission whose required rank sits above the player's in `rankOrder` is
   * never offered, whatever its status.
   */
  lemma RankAboveNeverOffered(missions: seq<Mission>, player: PlayerStats, missionStatus: map<string, string>, m: Mission)
    requires JsText.IndexOf(RankOrder, m.requiredRank) > JsText.IndexOf(RankOrder, player.currentRank)
    ensures m !in FilterAvailable(missions, player, missionStatus)
  {
    FilterMembership(missions, player, missionStatus, m);
  }

  /**
   * `indexOf` returns -1 for an unknown rank: an unknown required rank
   * always passes the rank check, and an unknown player rank fails it
   * against every known required rank.
   */
  lemma UnknownRanks(m: Mission, player: PlayerStats)
    ensures m.requiredRank !in RankOrder ==> RankAllows(m, player)
    ensures player.currentRank !in RankOrder && m.requiredRank in RankOrder ==> !RankAllows(m, player)
  {
  }

  /** A completed or failed mission that passes the rank check is offered, whatever its coins and prerequisites. */
  lemma ReplayAlwaysOffered(missions: seq<Mission>, player: PlayerStats, missionStatus: map<string, string>, m: Mission)
    requires m in missions && RankAllows(m, player) && IsReplay(StatusOf(missionStatus, m.id))
    ensures m in FilterAvailable(missions, player, missionStatus)
  {
    FilterMembership(missions, player, missionStatus, m);
  }

  /**
   * Any other mission is left out when it has a truthy coin minimum the
   * player does not reach, or a prerequisite that is not completed.
   */
  lemma NewMissionGates(missions: seq<Mission>, player: PlayerStats, missionStatus: map<string, string>, m: Mission, k: int)
    requires !IsReplay(StatusOf(missionStatus, m.id))
    requires || (HasCoinMinimum(m) && player.coins < m.minCoins.value)
             || (0 <= k < |m.prerequisites| && StatusOf(missionStatus, m.prerequisites[k]) != Some("completed"))
    ensures m !in FilterAvailable(missions, player, missionStatus)
  {
    FilterMembership(missions, player, missionStatus, m);
  }

  /**
   * `checkMissionRequirements` is the stricter sibling of the filter: what
   * it accepts the filter offers, and on a mission that is neither
   * completed nor failed the two agree.
   */
  lemma RequirementsAgreeWithFilter(m: Mission, player: PlayerStats, missionStatus: map<string, string>)
    ensures MeetsRequirements(m, player, missionStatus) ==> IsAvailable(m, player, missionStatus)
    ensures !IsReplay(StatusOf(missionStatus, m.id)) ==>
      (MeetsRequirements(m, player, missionStatus) <==> IsAvailable(m, player, missionStatus))
  {
  }

  // ---------------------------------------------------------------------
  // Inventory and stats initialisation
  // ---------------------------------------------------------------------

  /** The items every inventory has a count for. */
  const DefaultItems: seq<string> := [
    "smoke_bomb", "shuriken", "grappling_hook", "firecracker", "sleeping_dart", "poison_rice", "medicinal_herb"]

  /** The inventory used when nothing is saved. */
  const DefaultInventory: map<string, int> := map[
    "smoke_bomb" := 3, "shuriken" := 10, "grappling_hook" := 1, "firecracker" := 5,
    "sleeping_dart" := 2, "poison_rice" := 3, "medicinal_herb" := 2]

  /**
   * `loadPlayerInventory()` after the storage read: start from the saved
   * inventory (or the defaults when none is saved) and give every default
   * item that has no count a count of 0.
   */
  method LoadPlayerInventory(saved: Option<map<string, int>>) returns (inventory: map<string, int>)
    ensures forall item :: item in DefaultItems ==> item in inventory
    ensures saved.Some? ==> forall k :: k in saved.value ==> k in inventory && inventory[k] == saved.value[k]
    ensures saved.Some? ==> forall k :: k in inventory && k !in saved.value ==> k in DefaultItems && inventory[k] == 0
    ensures saved.None? ==> inventory == DefaultInventory
  {
    var base := if saved.Some? then saved.value else DefaultInventory;
    inventory := base;
    for i := 0 to |DefaultItems|
      invariant forall j :: 0 <= j < i ==> DefaultItems[j] in inventory
      invariant forall k :: k in base ==> k in inventory && inventory[k] == base[k]
      invariant forall k :: k in inventory && k !in base ==> k in DefaultItems[..i] && inventory[k] == 0
    {
      var item := DefaultItems[i];
      if item !in inventory {
        inventory := inventory[item := 0];
      }
    }
    if saved.None? {
      assert inventory.Keys == DefaultInventory.Keys;
    }
  }

  /** The zeroed `playerStats.missions` record. */
  const EmptyMissionRecord: MissionRecord := MissionRecord(0, 0, 0, 0, 0, 0, None, None)

  /**
   * The initialisation in `updateMissionStats()`: a missing missions record
   * becomes the zeroed record; an existing one, and every other field, is
   * left as it was.
   */
  function UpdateMissionStats(stats: PlayerStats): (r: PlayerStats)
    ensures r.missions.Some?
    ensures r.currentRank == stats.currentRank && r.coins == stats.coins
    ensures stats.missions.Some? ==> r == stats
    ensures stats.missions.None? ==> r.missions == Some(EmptyMissionRecord)
  {
    if stats.missions.None? then stats.(missions := Some(EmptyMissionRecord)) else stats
  }

  /** Initialising twice is the same as once. */
  lemma UpdateMissionStatsIdempotent(stats: PlayerStats)
    ensures UpdateMissionStats(UpdateMissionStats(stats)) == UpdateMissionStats(stats)
  {
  }

  // ---------------------------------------------------------------------
  // Captions and estimates
  // ---------------------------------------------------------------------

  const StatusTexts: map<string, string> := map[
    "new" := "NEW", "in-progress" := "IN PROGRESS", "completed" := "COMPLETED", "failed" := "FAILED"]

  const ButtonTexts: map<string, string> := map[
    "new" := "START MISSION", "in-progress" := "CONTINUE MISSION",
    "completed" := "REPLAY MISSION", "failed" := "TRY AGAIN"]

  /** `getStatusText(status)`: the table's caption, or the status upper-cased. */
  function GetStatusText(status: string): (text: string)
    ensures status in StatusTexts ==> text == StatusTexts[status]
    ensures status !in StatusTexts ==> text == JsText.ToUpper(status)
  {
    if status in StatusTexts && StatusTexts[status] != "" then StatusTexts[status] else JsText.ToUpper(status)
  }

  /** `t` is `s` upper-cased character by character. */
  lemma UpperCaseOf(s: string, t: string)
    requires |s| == |t| && forall i :: 0 <= i < |s| ==> JsText.UpperChar(s[i]) == t[i]
    ensures JsText.ToUpper(s) == t
  {
  }

  /**
   * The table only departs from plain upper-casing for 'in-progress', which
   * it writes with a space.
   */
  lemma StatusTextIsUpperCased(status: string)
    requires status != "in-progress"
    ensures GetStatusText(status) == JsText.ToUpper(status)
  {
    if status !in StatusTexts {
    } else if status == "new" {
      assert StatusTexts[status] == "NEW";
      UpperCaseOf(status, "NEW");
    } else if status == "completed" {
      assert StatusTexts[status] == "COMPLETED";
      UpperCaseOf(status, "COMPLETED");
    } else if status == "failed" {
      assert StatusTexts[status] == "FAILED";
      UpperCaseOf(status, "FAILED");
    }
  }

  /** The status caption is always in capitals. */
  lemma StatusTextHasNoLower(status: string)
    ensures forall i :: 0 <= i < |GetStatusText(status)| ==> !JsText.IsLowerAscii(GetStatusText(status)[i])
  {
    if status == "in-progress" {
      assert GetStatusText(status) == "IN PROGRESS";
    } else {
      StatusTextIsUpperCased(status);
      JsText.ToUpperHasNoLower(status);
    }
  }

  /** `getButtonText(status)`: the table's caption, or 'START MISSION'. */
  function GetButtonText(status: string): (text: string)
    ensures status in ButtonTexts ==> text == ButtonTexts[status]
    ensures status !in ButtonTexts ==> text == "START MISSION"
  {
    if status in ButtonTexts && ButtonTexts[status] != "" then ButtonTexts[status] else "START MISSION"
  }

  /** The button caption is one of the four, and an unknown status reads like a new mission. */
  lemma ButtonTextIsKnown(status: string)
    ensures GetButtonText(status) in ButtonTexts.Values
    ensures status !in ButtonTexts ==> GetButtonText(status) == GetButtonText("new")
  {
    assert ButtonTexts["new"] == "START MISSION";
  }

  /** `estimateMissionLength(mission)`: the number of scenes in the story, 5 without one. */
  function EstimateMissionLength(m: Mission): (n: nat)
    ensures m.story.Some? ==> n == |m.story.value|
    ensures m.story.None? ==> n == 5
  {
    if m.story.Some? then |m.story.value| else 5
  }

  // ---------------------------------------------------------------------
  // formatItemName
  // ---------------------------------------------------------------------

  /** `words.map(w => w.charAt(0).toUpperCase() + w.slice(1))`. */
  function CapitalizeEach(words: seq<string>): (r: seq<string>)
    ensures |r| == |words|
  {
    if words == [] then [] else [JsText.CapitalizeFirst(words[0])] + CapitalizeEach(words[1..])
  }

  /**
   * `formatItemName(itemId)`: split on '_', capitalise each piece, join with
   * ' '. The result is the one-pass character transform `FormatFrom`.
   */
  function FormatItemName(itemId: string): (name: string)
    ensures name == FormatFrom(itemId, true)
  {
    var parts := JsText.Split(itemId, '_');
    JoinCapitalizedIsFormatFrom(itemId, true);
    assert CapitalizeEach(parts) == [JsText.CapitalizeFirst(parts[0])] + CapitalizeEach(parts[1..]);
    JsText.Join(CapitalizeEach(parts), ' ')
  }

  /**
   * The same transformation read character by character: '_' becomes ' ',
   * and a character that opens a piece (the first, or one after '_') is
   * upper-cased when `atStart` says the piece is being capitalised.
   */
  function FormatFrom(s: string, atStart: bool): (r: string)
    ensures |r| == |s|
  {
    if s == [] then []
    else if s[0] == '_' then [' '] + FormatFrom(s[1..], true)
    else [if atStart then JsText.UpperChar(s[0]) else s[0]] + FormatFrom(s[1..], false)
  }

  lemma {:induction false} JoinCapitalizedIsFormatFrom(s: string, atStart: bool)
    ensures var parts := JsText.Split(s, '_');
      JsText.Join([if atStart then JsText.CapitalizeFirst(parts[0]) else parts[0]] + CapitalizeEach(parts[1..]), ' ')
        == FormatFrom(s, atStart)
  {
    if s != [] {
      var rest := JsText.Split(s[1..], '_');
      JoinCapitalizedIsFormatFrom(s[1..], s[0] == '_');
      assert CapitalizeEach(rest) == [JsText.CapitalizeFirst(rest[0])] + CapitalizeEach(rest[1..]);
      if s[0] == '_' {
        assert JsText.Split(s, '_') == [[]] + rest;
        assert ([[]] + CapitalizeEach(rest))[1..] == CapitalizeEach(rest);
      } else {
        var parts := JsText.Split(s, '_');
        assert parts[0] == [s[0]] + rest[0] && parts[1..] == rest[1..];
        var c := if atStart then JsText.UpperChar(s[0]) else s[0];
        assert (if atStart then JsText.CapitalizeFirst(parts[0]) else parts[0]) == [c] + rest[0];
        JsText.JoinPrepend([c], rest[0], CapitalizeEach(rest[1..]), ' ');
      }
    }
  }

  lemma {:induction false} FormatFromAt(s: string, atStart: bool, i: int)
    requires 0 <= i < |s|
    ensures FormatFrom(s, atStart)[i] ==
      if s[i] == '_' then ' '
      else if (if i == 0 then atStart else s[i - 1] == '_') then JsText.UpperChar(s[i])
      else s[i]
  {
    if i > 0 {
      FormatFromAt(s[1..], s[0] == '_', i - 1);
    }
  }

  lemma {:induction false} FormatFromCounts(s: string, atStart: bool)
    ensures JsText.Count(FormatFrom(s, atStart), '_') == 0
    ensures JsText.Count(FormatFrom(s, atStart), ' ') == JsText.Count(s, ' ') + JsText.Count(s, '_')
  {
    if s != [] {
      FormatFromCounts(s[1..], s[0] == '_');
      var r := FormatFrom(s, atStart);
      assert r[1..] == FormatFrom(s[1..], s[0] == '_');
    }
  }

  /**
   * `formatItemName` keeps the length, turns every '_' into a single ' ',
   * upper-cases the first character of every piece, and leaves the rest
   * alone; so the result has no '_' and as many more spaces as there were
   * underscores.
   */
  lemma FormatItemNameSpec(itemId: string)
    ensures |FormatItemName(itemId)| == |itemId|
    ensures forall i :: 0 <= i < |itemId| ==>
      FormatItemName(itemId)[i] ==
        (if itemId[i] == '_' then ' '
         else if i == 0 || itemId[i - 1] == '_' then JsText.UpperChar(itemId[i])
         else itemId[i])
    ensures JsText.Count(FormatItemName(itemId), '_') == 0
    ensures JsText.Count(FormatItemName(itemId), ' ') == JsText.Count(itemId, ' ') + JsText.Count(itemId, '_')
  {
    FormatFromCounts(itemId, true);
    forall i | 0 <= i < |itemId|
      ensures FormatItemName(itemId)[i] ==
        (if itemId[i] == '_' then ' '
         else if i == 0 || itemId[i - 1] == '_' then JsText.UpperChar(itemId[i])
         else itemId[i])
    {
      FormatFromAt(itemId, true, i);
    }
  }

  // ---------------------------------------------------------------------
  // showMissionScene dispatch
  // ---------------------------------------------------------------------

  datatype MissionOutcome = Success | Failure

  /** What `showMissionScene` does first: end the mission, or go on to render the scene. */
  datatype SceneStep<S> = EndMission(outcome: MissionOutcome) | RenderScene(scene: S)

  /**
   * The opening of `showMissionScene()`, with `findScene(currentScene)` as
   * the parameter `scene`: spotted ends in failure before any lookup; a
   * missing scene ends in success; otherwise the scene is rendered.
   */
  function ShowMissionSceneStep<S>(spotted: bool, scene: Option<S>): (step: SceneStep<S>)
    ensures spotted ==> step == EndMission(Failure)
    ensures step == EndMission(Success) <==> !spotted && scene.None?
    ensures step.RenderScene? <==> !spotted && scene.Some?
    ensures step.RenderScene? ==> scene == Some(step.scene)
  {
    if spotted then EndMission(Failure)
    else if scene.None? then EndMission(Success)
    else RenderScene(scene.value)
  }
}
