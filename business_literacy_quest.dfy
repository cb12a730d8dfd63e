/**
 * The Business Literacy Quest game (`components/BusinessLiteracyQuest.tsx`):
 * choosing the next level of a quest, unlocking the next quest, checking a
 * mentor answer against keywords, completing a level (xp, coins, badges,
 * overall level, the premium-trial badge), the quest-completed predicate
 * and the shop tier.
 */
module BusinessLiteracyQuest {
  import opened Wrappers
  import opened Types
  import opened Strings
  import AuthService

  const PremiumBadge := "Premium Trial Unlocked"

  /** The progress used when the profile carries none. */
  const DefaultProgress := GameProgress(1, 0, 0, [], [], None, None)

  // ---- `completedLevels`: an object from quest id to level ids ----

  /** `completedLevels[questId] || []`. */
  function Lookup(c: seq<CompletedEntry>, questId: string): seq<string>
  {
    if c == [] then []
    else if c[0].questId == questId then c[0].levelIds
    else Lookup(c[1..], questId)
  }

  /** `{ ...completedLevels, [questId]: ids }`: an existing key keeps its place, a new key goes last. */
  function SetLevels(c: seq<CompletedEntry>, questId: string, ids: seq<string>): seq<CompletedEntry>
  {
    if c == [] then [CompletedEntry(questId, ids)]
    else if c[0].questId == questId then [CompletedEntry(questId, ids)] + c[1..]
    else [c[0]] + SetLevels(c[1..], questId, ids)
  }

  /** `Object.values(completedLevels).flat().length`. */
  function TotalCompleted(c: seq<CompletedEntry>): nat
  {
    if c == [] then 0 else |c[0].levelIds| + TotalCompleted(c[1..])
  }

  /** Writing one key sets that key, leaves every other key alone, and changes the total by the size difference. */
  lemma {:induction false} SetLevelsFacts(c: seq<CompletedEntry>, questId: string, ids: seq<string>)
    ensures Lookup(SetLevels(c, questId, ids), questId) == ids
    ensures forall other :: other != questId ==> Lookup(SetLevels(c, questId, ids), other) == Lookup(c, other)
    ensures TotalCompleted(SetLevels(c, questId, ids)) + |Lookup(c, questId)| == TotalCompleted(c) + |ids|
    decreases |c|
  {
    if c != [] && c[0].questId != questId {
      SetLevelsFacts(c[1..], questId, ids);
      assert SetLevels(c, questId, ids)[1..] == SetLevels(c[1..], questId, ids);
    } else if c != [] {
      assert SetLevels(c, questId, ids)[1..] == c[1..];
    }
  }

  // ---- quests and levels ----

  /** `quests.findIndex(q => q.id === questId)`. */
  function QuestIndex(quests: seq<Quest>, questId: string): (k: int)
    ensures -1 <= k < |quests|
    ensures k >= 0 ==> quests[k].id == questId && forall j :: 0 <= j < k ==> quests[j].id != questId
    ensures k == -1 <==> forall j :: 0 <= j < |quests| ==> quests[j].id != questId
  {
    if quests == [] then -1
    else if quests[0].id == questId then 0
    else
      var k := QuestIndex(quests[1..], questId);
      if k == -1 then -1 else k + 1
  }

  /** `quests.find(q => q.id === questId)`. */
  function FindQuest(quests: seq<Quest>, questId: string): Option<Quest>
  {
    var k := QuestIndex(quests, questId);
    if k == -1 then None else Some(quests[k])
  }

  /** The position of the first level whose id is not among `done`, or -1. */
  function NextLevelIndex(levels: seq<QuestLevel>, done: seq<string>): (k: int)
    ensures -1 <= k < |levels|
    ensures k >= 0 ==> levels[k].id !in done && forall j :: 0 <= j < k ==> levels[j].id in done
    ensures k == -1 <==> forall j :: 0 <= j < |levels| ==> levels[j].id in done
  {
    if levels == [] then -1
    else if levels[0].id !in done then 0
    else
      var k := NextLevelIndex(levels[1..], done);
      if k == -1 then -1 else k + 1
  }

  /** `quest.levels.find(level => !completedLevelsForQuest.includes(level.id))`. */
  function NextLevel(quest: Quest, p: GameProgress): Option<QuestLevel>
  {
    var k := NextLevelIndex(quest.levels, Lookup(p.completedLevels, quest.id));
    if k == -1 then None else Some(quest.levels[k])
  }

  /** `quest.levels.find(l => l.id === levelId)`, as a position (-1 when no level has the id). */
  function LevelIndex(levels: seq<QuestLevel>, levelId: string): (k: int)
    ensures -1 <= k < |levels|
    ensures k >= 0 ==> levels[k].id == levelId && forall j :: 0 <= j < k ==> levels[j].id != levelId
    ensures k == -1 <==> forall j :: 0 <= j < |levels| ==> levels[j].id != levelId
  {
    if levels == [] then -1
    else if levels[0].id == levelId then 0
    else
      var k := LevelIndex(levels[1..], levelId);
      if k == -1 then -1 else k + 1
  }

  function FindLevel(quest: Quest, levelId: string): Option<QuestLevel>
  {
    var k := LevelIndex(quest.levels, levelId);
    if k == -1 then None else Some(quest.levels[k])
  }

  /** The active quest and the active level of the screen. */
  datatype Selection = Selection(quest: Option<Quest>, level: Option<QuestLevel>)

  /** JavaScript truthiness of an optional string: present and not empty. */
  predicate Truthy(s: Option<string>)
  {
    s.Some? && s.value != ""
  }

  /**
   * The selection the fetch effect makes: the saved current quest and level
   * when both ids are set (nothing changes when that quest is unknown),
   * otherwise the first unlocked quest with its first uncompleted level,
   * otherwise nothing changes.
   */
  function InitialSelection(quests: seq<Quest>, p: GameProgress, current: Selection): Selection
  {
    if Truthy(p.currentQuestId) && Truthy(p.currentLevelId) then
      var quest := FindQuest(quests, p.currentQuestId.value);
      if quest.Some? then Selection(quest, FindLevel(quest.value, p.currentLevelId.value)) else current
    else if |p.unlockedQuests| > 0 then
      var quest := FindQuest(quests, p.unlockedQuests[0]);
      Selection(quest, if quest.Some? then NextLevel(quest.value, p) else None)
    else current
  }

  /**
   * Looking the chosen next level up again by its id finds that same level:
   * any earlier level with the same id would be uncompleted too, and would
   * have been chosen instead.
   */
  lemma FindNextLevelById(quest: Quest, p: GameProgress)
    requires NextLevel(quest, p).Some?
    ensures FindLevel(quest, NextLevel(quest, p).value.id) == NextLevel(quest, p)
  {
    var done := Lookup(p.completedLevels, quest.id);
    var k := NextLevelIndex(quest.levels, done);
    var j := LevelIndex(quest.levels, quest.levels[k].id);
    assert j != -1 && j <= k;
  }

  /**
   * After a building click saves the quest and its next level as current,
   * the fetch effect that the save triggers selects that same quest and
   * level again, provided both ids are non-empty.
   */
  lemma ClickSelectionSurvivesRefetch(quests: seq<Quest>, p: GameProgress, questId: string, current: Selection)
    requires questId != "" && FindQuest(quests, questId).Some?
    requires NextLevel(FindQuest(quests, questId).value, p).Some?
    requires NextLevel(FindQuest(quests, questId).value, p).value.id != ""
    ensures var quest := FindQuest(quests, questId).value;
            var level := NextLevel(quest, p).value;
            var p' := p.(currentQuestId := Some(questId), currentLevelId := Some(level.id));
            InitialSelection(quests, p', current) == Selection(Some(quest), Some(level))
  {
    var quest := FindQuest(quests, questId).value;
    var p' := p.(currentQuestId := Some(questId), currentLevelId := Some(NextLevel(quest, p).value.id));
    assert NextLevel(quest, p') == NextLevel(quest, p);
    FindNextLevelById(quest, p);
  }

  /**
   * After a completion clears the current ids, the fetch effect moves to the
   * first unlocked quest and to its first level not yet completed, every
   * earlier level of it being completed; with no quest unlocked it changes nothing.
   */
  lemma RefetchAfterCompletion(quests: seq<Quest>, p: GameProgress, questId: string, level: QuestLevel, current: Selection)
    ensures var p' := CompleteLevel(p, questId, level);
            var sel := InitialSelection(quests, p', current);
            && (|p.unlockedQuests| == 0 ==> sel == current)
            && (|p.unlockedQuests| > 0 ==>
                  && sel.quest == FindQuest(quests, p.unlockedQuests[0])
                  && (sel.level.Some? ==>
                        var q := sel.quest.value;
                        var k := NextLevelIndex(q.levels, Lookup(p'.completedLevels, q.id));
                        && k >= 0 && sel.level.value == q.levels[k]
                        && sel.level.value.id !in Lookup(p'.completedLevels, q.id)
                        && forall j :: 0 <= j < k ==> q.levels[j].id in Lookup(p'.completedLevels, q.id)))
  {
    CompleteLevelEffects(p, questId, level);
  }

  /** Completing the chosen level moves the choice strictly forward in the quest, or ends it. */
  lemma CompletingChosenLevelAdvances(levels: seq<QuestLevel>, done: seq<string>)
    requires NextLevelIndex(levels, done) >= 0
    ensures var k := NextLevelIndex(levels, done);
            var k' := NextLevelIndex(levels, done + [levels[k].id]);
            k' == -1 || k < k'
  {
    var k := NextLevelIndex(levels, done);
    var done' := done + [levels[k].id];
    assert forall j :: 0 <= j <= k ==> levels[j].id in done';
  }

  /** `isQuestCompleted`: unlocked, and all its level ids are among the quest's completed ones. */
  predicate IsQuestCompleted(p: GameProgress, quest: Quest)
  {
    && quest.id in p.unlockedQuests
    && forall k :: 0 <= k < |quest.levels| ==> quest.levels[k].id in Lookup(p.completedLevels, quest.id)
  }

  /** A quest is completed exactly when it is unlocked and has no next level. */
  lemma QuestCompletedIffNoNextLevel(p: GameProgress, quest: Quest)
    ensures IsQuestCompleted(p, quest) <==> quest.id in p.unlockedQuests && NextLevel(quest, p).None?
  {
  }

  /** A new account has completed no quest that has a level. */
  lemma NewUserHasCompletedNothing(quest: Quest)
    requires |quest.levels| > 0
    ensures !IsQuestCompleted(AuthService.InitialProgress, quest)
  {
    assert Lookup(AuthService.InitialProgress.completedLevels, quest.id) == [];
    assert quest.levels[0].id !in Lookup(AuthService.InitialProgress.completedLevels, quest.id);
  }

  // ---- the answer check ----

  /** Some keyword, lower-cased, occurs in the lower-cased answer. */
  function AnyKeywordIn(answer: string, keywords: seq<string>): (found: bool)
    ensures found <==> exists k :: 0 <= k < |keywords| && Includes(ToLower(answer), ToLower(keywords[k]))
  {
    if keywords == [] then false
    else Includes(ToLower(answer), ToLower(keywords[0])) || AnyKeywordIn(answer, keywords[1..])
  }

  /** `expectedAnswerKeywords?.some(...) || false`: no keyword list means incorrect. */
  function IsCorrectAnswer(answer: string, level: QuestLevel): (correct: bool)
    ensures correct <==> (level.expectedAnswerKeywords.Some? &&
                          exists k :: 0 <= k < |level.expectedAnswerKeywords.value| &&
                            Includes(ToLower(answer), ToLower(level.expectedAnswerKeywords.value[k])))
    ensures level.expectedAnswerKeywords.None? ==> !correct
  {
    level.expectedAnswerKeywords.Some? && AnyKeywordIn(answer, level.expectedAnswerKeywords.value)
  }

  /** The check ignores the letter case of the answer. */
  lemma AnswerCheckIgnoresCase(answer: string, level: QuestLevel)
    ensures IsCorrectAnswer(ToLower(answer), level) == IsCorrectAnswer(answer, level)
  {
    ToLowerIdempotent(answer);
  }

  /** An answer whose text contains a keyword verbatim is accepted. */
  lemma AnswerContainingKeywordIsCorrect(answer: string, level: QuestLevel, k: nat, i: nat)
    requires level.expectedAnswerKeywords.Some? && k < |level.expectedAnswerKeywords.value|
    requires var kw := level.expectedAnswerKeywords.value[k];
             i + |kw| <= |answer| && answer[i..i + |kw|] == kw
    ensures IsCorrectAnswer(answer, level)
  {
    var kw := level.expectedAnswerKeywords.value[k];
    var lower := ToLower(answer);
    assert lower[i..i + |kw|] == ToLower(kw);
    IncludesAt(lower, ToLower(kw), i);
  }

  // ---- completing a level ----

  /** `newGameProgress`: the level id appended to the quest's list, the rewards added, the task cleared. */
  function CompleteLevel(p: GameProgress, questId: string, level: QuestLevel): GameProgress
  {
    p.(xp := p.xp + level.xpReward,
       coins := p.coins + level.coinReward,
       completedLevels := SetLevels(p.completedLevels, questId, Lookup(p.completedLevels, questId) + [level.id]),
       currentQuestId := None,
       currentLevelId := None)
  }

  /**
   * After completion the quest's list has gained the level id at its end,
   * other quests' lists are as before, xp and coins rose by exactly the
   * rewards, the count of completed levels rose by one, and nothing else
   * but the current task changed.
   */
  lemma CompleteLevelEffects(p: GameProgress, questId: string, level: QuestLevel)
    ensures var p' := CompleteLevel(p, questId, level);
      && Lookup(p'.completedLevels, questId) == Lookup(p.completedLevels, questId) + [level.id]
      && (forall other :: other != questId ==> Lookup(p'.completedLevels, other) == Lookup(p.completedLevels, other))
      && TotalCompleted(p'.completedLevels) == TotalCompleted(p.completedLevels) + 1
      && p'.xp == p.xp + level.xpReward && p'.coins == p.coins + level.coinReward
      && p'.currentQuestId.None? && p'.currentLevelId.None?
      && p'.level == p.level && p'.unlockedQuests == p.unlockedQuests
  {
    SetLevelsFacts(p.completedLevels, questId, Lookup(p.completedLevels, questId) + [level.id]);
  }

  /**
   * `updatedBadges`: the level's badge appended when it is truthy (present
   * and not the empty string) and not already held.
   */
  function AwardBadge(badges: seq<string>, reward: Option<string>): seq<string>
  {
    if Awards(badges, reward) then badges + [reward.value] else badges
  }

  /** `level.badgeReward && !updatedBadges.includes(level.badgeReward)`. */
  predicate Awards(badges: seq<string>, reward: Option<string>)
  {
    reward.Some? && reward.value != "" && reward.value !in badges
  }

  predicate NoDuplicates(names: seq<string>)
  {
    forall i, j :: 0 <= i < j < |names| ==> names[i] != names[j]
  }

  /**
   * A non-empty reward badge is held afterwards; a missing or empty one
   * changes nothing; earlier badges keep their places, and no badge is held twice.
   */
  lemma AwardBadgeFacts(badges: seq<string>, reward: Option<string>)
    ensures reward.Some? && reward.value != "" ==> reward.value in AwardBadge(badges, reward)
    ensures reward.None? || reward.value == "" ==> AwardBadge(badges, reward) == badges
    ensures reward.Some? && reward.value in badges ==> AwardBadge(badges, reward) == badges
    ensures AwardBadge(badges, reward)[..|badges|] == badges
    ensures |AwardBadge(badges, reward)| == |badges| + (if Awards(badges, reward) then 1 else 0)
    ensures NoDuplicates(badges) ==> NoDuplicates(AwardBadge(badges, reward))
  {
  }

  /** `newOverallLevel`: badges + floor(xp / 500) + 1 (Dafny's `/` is floor division for a positive divisor). */
  function OverallLevel(badges: seq<string>, xp: int): int
  {
    |badges| + xp / 500 + 1
  }

  /** With non-negative xp the overall level is at least one more than the number of badges, and grows with xp. */
  lemma OverallLevelBounds(badges: seq<string>, xp: int, xp': int)
    requires 0 <= xp <= xp'
    ensures OverallLevel(badges, xp) >= |badges| + 1
    ensures OverallLevel(badges, xp) <= OverallLevel(badges, xp')
    ensures OverallLevel(badges, xp) * 500 <= (|badges| + 1) * 500 + xp
  {
  }

  // ---- unlocking the next quest ----

  /**
   * All levels done: the quest after `questId` in list order is unlocked
   * and the task cleared, if it exists and is not unlocked yet; otherwise
   * nothing changes.
   */
  function UnlockNext(p: GameProgress, quests: seq<Quest>, questId: string): GameProgress
  {
    var next := QuestIndex(quests, questId) + 1;
    if next < |quests| && quests[next].id !in p.unlockedQuests then
      p.(unlockedQuests := p.unlockedQuests + [quests[next].id], currentQuestId := None, currentLevelId := None)
    else p
  }

  /**
   * Unlocking adds at most one quest, at the end, which is the quest
   * right after the clicked one; it keeps the list free of duplicates and
   * touches neither xp, coins nor the completed levels.
   */
  lemma UnlockNextFacts(p: GameProgress, quests: seq<Quest>, questId: string)
    requires QuestIndex(quests, questId) >= 0
    ensures var p' := UnlockNext(p, quests, questId);
      && p'.xp == p.xp && p'.coins == p.coins && p'.completedLevels == p.completedLevels
      && (p' == p || (exists k :: 0 <= k < |quests| - 1 && quests[k].id == questId &&
                         p'.unlockedQuests == p.unlockedQuests + [quests[k + 1].id]))
      && (NoDuplicates(p.unlockedQuests) ==> NoDuplicates(p'.unlockedQuests))
  {
  }

  /** The last quest of the list unlocks nothing. */
  lemma LastQuestUnlocksNothing(p: GameProgress, quests: seq<Quest>)
    requires |quests| > 0 && forall j :: 0 <= j < |quests| - 1 ==> quests[j].id != quests[|quests| - 1].id
    ensures UnlockNext(p, quests, quests[|quests| - 1].id) == p
  {
    assert QuestIndex(quests, quests[|quests| - 1].id) == |quests| - 1;
  }

  // ---- the shop ----

  function ShopTier(xp: int): string
  {
    if xp < 500 then "Small Stall" else if xp < 1500 then "Thriving Store" else "Business Empire"
  }

  function TierRank(tier: string): int
  {
    if tier == "Small Stall" then 0 else if tier == "Thriving Store" then 1 else 2
  }

  /** More xp never gives a lower tier, and the three tiers sit at 500 and 1500 xp. */
  lemma ShopTierMonotone(xp: int, xp': int)
    requires xp <= xp'
    ensures TierRank(ShopTier(xp)) <= TierRank(ShopTier(xp'))
    ensures ShopTier(xp) == "Small Stall" <==> xp < 500
    ensures ShopTier(xp) == "Thriving Store" <==> 500 <= xp < 1500
    ensures ShopTier(xp) == "Business Empire" <==> xp >= 1500
  {
  }

  /** The screen's state: the loaded quests, the game progress, the profile, and the active task. */
  class QuestGame {
    var quests: seq<Quest>
    var progress: GameProgress
    var profile: UserProfile
    var activeQuest: Option<Quest>
    var activeLevel: Option<QuestLevel>
    var showPremiumTrial: bool

    /** Mounting: the profile's progress, or a default one. */
    constructor (profile: UserProfile, quests: seq<Quest>)
      ensures this.profile == profile && this.quests == quests
      ensures progress == (if profile.gameProgress.Some? then profile.gameProgress.value else DefaultProgress)
      ensures activeQuest.None? && activeLevel.None? && !showPremiumTrial
    {
      this.profile := profile;
      this.quests := quests;
      progress := if profile.gameProgress.Some? then profile.gameProgress.value else DefaultProgress;
      activeQuest := None;
      activeLevel := None;
      showPremiumTrial := false;
    }

    /** The progress is saved and mirrored into the profile. */
    method SaveProgress(p: GameProgress)
      modifies this
      ensures progress == p && profile == old(profile).(gameProgress := Some(p))
      ensures quests == old(quests) && activeQuest == old(activeQuest) && activeLevel == old(activeLevel)
      ensures showPremiumTrial == old(showPremiumTrial)
    {
      progress := p;
      profile := profile.(gameProgress := Some(p));
    }

    /**
     * The fetch effect, which runs on mounting and again whenever the
     * profile's progress changes, so after every save of the handlers below:
     * the fetched quests and progress replace the screen's own, and the
     * active quest and level are chosen again by `InitialSelection`.
     */
    method ApplyFetchedGameData(fetchedQuests: seq<Quest>, fetchedProgress: GameProgress)
      modifies this
      ensures quests == fetchedQuests && progress == fetchedProgress
      ensures Selection(activeQuest, activeLevel) ==
              InitialSelection(fetchedQuests, fetchedProgress, Selection(old(activeQuest), old(activeLevel)))
      ensures profile == old(profile) && showPremiumTrial == old(showPremiumTrial)
    {
      quests := fetchedQuests;
      progress := fetchedProgress;
      if Truthy(fetchedProgress.currentQuestId) && Truthy(fetchedProgress.currentLevelId) {
        var quest := FindQuest(fetchedQuests, fetchedProgress.currentQuestId.value);
        if quest.Some? {
          activeQuest := quest;
          activeLevel := FindLevel(quest.value, fetchedProgress.currentLevelId.value);
        }
      } else if |fetchedProgress.unlockedQuests| > 0 {
        var firstUnlockedQuestId := fetchedProgress.unlockedQuests[0];
        var firstQuest := FindQuest(fetchedQuests, firstUnlockedQuestId);
        activeQuest := firstQuest;
        if firstQuest.Some? {
          activeLevel := NextLevel(firstQuest.value, fetchedProgress);
        } else {
          activeLevel := None;
        }
      }
    }

    /**
     * `handleQuestBuildingClick`: an unknown quest changes nothing. Otherwise
     * the quest becomes active; its first uncompleted level becomes the task
     * and only the current ids of the progress change; with every level done
     * the next quest may be unlocked.
     */
    method HandleQuestBuildingClick(questId: string)
      modifies this
      ensures quests == old(quests) && showPremiumTrial == old(showPremiumTrial)
      ensures FindQuest(quests, questId).None? ==>
        progress == old(progress) && profile == old(profile) && activeQuest == old(activeQuest) && activeLevel == old(activeLevel)
      ensures FindQuest(quests, questId).Some? ==>
        var quest := FindQuest(quests, questId).value;
        && activeQuest == Some(quest)
        && activeLevel == NextLevel(quest, old(progress))
        && (activeLevel.Some? ==>
              && progress == old(progress).(currentQuestId := Some(questId), currentLevelId := Some(activeLevel.value.id))
              && profile == old(profile).(gameProgress := Some(progress)))
        && (activeLevel.None? ==>
              && progress == UnlockNext(old(progress), quests, questId)
              && (progress != old(progress) ==> profile == old(profile).(gameProgress := Some(progress)))
              && (progress == old(progress) ==> profile == old(profile)))
    {
      var found := FindQuest(quests, questId);
      if found.None? {
        return;
      }
      var quest := found.value;
      activeQuest := Some(quest);
      var nextLevel := NextLevel(quest, progress);
      if nextLevel.Some? {
        activeLevel := nextLevel;
        SaveProgress(progress.(currentQuestId := Some(questId), currentLevelId := Some(nextLevel.value.id)));
      } else {
        activeLevel := None;
        var nextQuestIndex := QuestIndex(quests, questId) + 1;
        if nextQuestIndex < |quests| && quests[nextQuestIndex].id !in progress.unlockedQuests {
          SaveProgress(progress.(unlockedQuests := progress.unlockedQuests + [quests[nextQuestIndex].id],
                                 currentQuestId := None, currentLevelId := None));
        }
      }
    }

    /**
     * `handleLevelCompletion`: with no active quest nothing changes.
     * Otherwise the progress becomes `CompleteLevel`, the badge is awarded,
     * the overall level recomputed, the task cleared, and the premium badge
     * appended once three levels are done and the profile did not hold it
     * BEFORE this completion (the level is not recomputed for it).
     */
    method HandleLevelCompletion(level: QuestLevel)
      modifies this
      ensures quests == old(quests) && activeQuest == old(activeQuest)
      ensures old(activeQuest).None? ==>
        progress == old(progress) && profile == old(profile) && activeLevel == old(activeLevel) &&
        showPremiumTrial == old(showPremiumTrial)
      ensures old(activeQuest).Some? ==>
        var p := CompleteLevel(old(progress), old(activeQuest).value.id, level);
        var badges := AwardBadge(old(profile).badges, level.badgeReward);
        var premium := TotalCompleted(p.completedLevels) >= 3 && PremiumBadge !in old(profile).badges;
        && progress == p
        && activeLevel.None?
        && showPremiumTrial == (premium || old(showPremiumTrial))
        && profile == old(profile).(badges := if premium then badges + [PremiumBadge] else badges,
                                    level := OverallLevel(badges, p.xp),
                                    gameProgress := Some(p))
    {
      if activeQuest.None? {
        return;
      }
      var newGameProgress := CompleteLevel(progress, activeQuest.value.id, level);
      var updatedBadges := AwardBadge(profile.badges, level.badgeReward);
      var newOverallLevel := OverallLevel(updatedBadges, newGameProgress.xp);
      var previousBadges := profile.badges;
      progress := newGameProgress;
      profile := profile.(badges := updatedBadges, level := newOverallLevel, gameProgress := Some(newGameProgress));
      activeLevel := None;
      if TotalCompleted(progress.completedLevels) >= 3 && PremiumBadge !in previousBadges {
        showPremiumTrial := true;
        profile := profile.(badges := profile.badges + [PremiumBadge]);
      }
    }

    /**
     * `handleMentorSendMessage`: a blank answer or no active level changes
     * nothing; when the mentor replies (`mentorReplied`; a failed reply is
     * caught and shown) a correct answer completes the active level.
     */
    method HandleMentorSendMessage(answer: string, mentorReplied: bool) returns (completed: bool)
      modifies this
      ensures completed <==> !IsBlank(answer) && old(activeLevel).Some? && mentorReplied &&
                             IsCorrectAnswer(answer, old(activeLevel).value)
      ensures !completed ==>
        progress == old(progress) && profile == old(profile) && activeLevel == old(activeLevel) &&
        activeQuest == old(activeQuest) && quests == old(quests) && showPremiumTrial == old(showPremiumTrial)
      ensures completed ==> quests == old(quests) && activeQuest == old(activeQuest)
      ensures completed && old(activeQuest).None? ==>
        progress == old(progress) && profile == old(profile) && activeLevel == old(activeLevel) &&
        showPremiumTrial == old(showPremiumTrial)
      ensures completed && old(activeQuest).Some? ==>
        var level := old(activeLevel).value;
        var p := CompleteLevel(old(progress), old(activeQuest).value.id, level);
        var badges := AwardBadge(old(profile).badges, level.badgeReward);
        var premium := TotalCompleted(p.completedLevels) >= 3 && PremiumBadge !in old(profile).badges;
        && progress == p
        && activeLevel.None?
        && showPremiumTrial == (premium || old(showPremiumTrial))
        && profile == old(profile).(badges := if premium then badges + [PremiumBadge] else badges,
                                    level := OverallLevel(badges, p.xp),
                                    gameProgress := Some(p))
    {
      completed := false;
      if IsBlank(answer) || activeLevel.None? {
        return;
      }
      if mentorReplied && IsCorrectAnswer(answer, activeLevel.value) {
        completed := true;
        HandleLevelCompletion(activeLevel.value);
      }
    }
  }
}
