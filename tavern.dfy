/**
 * The tavern progression rules (game-main.js): ability scores generated from
 * three die results, d20 skill checks against a difficulty class that settle a
 * quest, gold purchases, and the conditions that decide which choices a scene
 * offers.
 *
 * The page keeps this state in module-level records and flags that its
 * handlers update in place; here they are the fields of one `Tavern` object.
 * Rendering, the dice modal and the story log are not modelled.  The two
 * timer callbacks that close a roll are the explicit steps FinishStatTest and
 * FinishSkillCheck.
 */
module Tavern {
  import opened Wrappers

  datatype Stat = STR | DEX | INT | CHA

  /** The four quests, one per character in the tavern. */
  datatype Quest = Bartho | Elara | Table | Stranger

  datatype QuestStatus = Pending | Success | Fail

  /** The scene keys: 'exterior', 'hub', 'bartho', 'bartho_post_stat', 'bartho_win', 'bartho_lose', …, 'room'. */
  datatype Scene = Exterior | Hub | Npc(npc: Quest) | PostStat(quest: Quest) | Win(won: Quest) | Lose(lost: Quest) | Room

  /** The stat each quest tests, and its difficulty class. */
  function StatOf(q: Quest): Stat {
    match q
    case Bartho => STR
    case Elara => DEX
    case Table => CHA
    case Stranger => INT
  }

  function DcOf(q: Quest): int {
    match q
    case Bartho => 12
    case Elara => 13
    case Table => 12
    case Stranger => 13
  }

  /** The d20 ability modifier floor((value - 10) / 2), with the floor made explicit. */
  function Modifier(value: int): (m: int)
    ensures 2 * m <= value - 10 < 2 * m + 2
    ensures value >= 10 ==> m >= 0
    ensures value < 10 ==> m < 0
  {
    // Dafny's division by a positive divisor rounds down, as Math.floor does
    (value - 10) / 2
  }

  /**
   * A skill check: the die result plus the stat's modifier must reach the DC.
   * Without the floor, that is: the stat plus twice the result reaches 2 * DC + 10.
   */
  function CheckSucceeds(result: int, statValue: int, dc: int): (ok: bool)
    ensures ok <==> statValue + 2 * result >= 2 * dc + 10
  {
    result + Modifier(statValue) >= dc
  }

  /** statRolls.reduce((a, b) => a + b, 0) */
  function Sum(rolls: seq<int>): int {
    if rolls == [] then 0 else Sum(rolls[..|rolls| - 1]) + rolls[|rolls| - 1]
  }

  /** A sum of die results each in [lo, hi] lies in [n * lo, n * hi]. */
  lemma {:induction false} SumBounds(rolls: seq<int>, lo: int, hi: int)
    requires forall i :: 0 <= i < |rolls| ==> lo <= rolls[i] <= hi
    ensures |rolls| * lo <= Sum(rolls) <= |rolls| * hi
  {
    if rolls != [] {
      var init := rolls[..|rolls| - 1];
      assert forall i :: 0 <= i < |init| ==> init[i] == rolls[i];
      SumBounds(init, lo, hi);
      assert |rolls| * lo == |init| * lo + lo;
      assert |rolls| * hi == |init| * hi + hi;
    }
  }

  /** Three d6 results make a stat in [3, 18]. */
  lemma ThreeDiceStat(rolls: seq<int>)
    requires |rolls| == 3
    requires forall i :: 0 <= i < 3 ==> 1 <= rolls[i] <= 6
    ensures 3 <= Sum(rolls) <= 18
  {
    SumBounds(rolls, 1, 6);
  }

  /** A choice a scene can offer, named after the action its button runs. */
  datatype Choice =
    | Goto(target: Scene)                  // loadScene(...)
    | RentRoom                             // buyRoom()
    | EatStew                              // buyStew()
    | RollStat(forQuest: Quest)            // startStatTest(stat, '<quest>_post_stat')
    | Attempt(attempted: Quest)            // loadScene('<quest>_post_stat')
    | Check(stat: Stat, dc: int, win: Scene, lose: Scene, key: Quest)  // startSkillCheck(stat, dc, win, lose, key)
    | RecallMemory(recalled: Quest)        // showMemory(quest)
    | ChatAI(with: Quest)                  // triggerAIChat(quest)
    | BattleArena                          // toggleFightModal()
    | Sleep                                // finishGame()

  class Tavern {
    // characterStats
    var stats: map<Stat, int>
    var gold: int
    // questLog, and the quests that have a generated memory image
    var quests: map<Quest, QuestStatus>
    var memories: set<Quest>
    // gameStateFlags
    var hasRoom: bool
    var hasEaten: bool
    // the roll in progress
    var activeStat: Option<Stat>
    var statRolls: seq<int>
    var isGeneratingStat: bool
    var isSkillCheck: bool
    var activeDC: int
    var activeSuccessScene: Option<Scene>
    var activeFailScene: Option<Scene>
    var activeQuestKey: Option<Quest>
    var pendingNextScene: Option<Scene>
    var currentScene: Scene

    ghost predicate Valid()
      reads this
    {
      && (forall s: Stat :: s in stats)
      && (forall q: Quest :: q in quests)
      && 0 <= gold
      && (isGeneratingStat ==> |statRolls| < 3)
    }

    /** The page's initial records: all stats 0, 5 gold, every quest pending, no room, no meal. */
    constructor ()
      ensures Valid()
      ensures stats == map[STR := 0, DEX := 0, INT := 0, CHA := 0] && gold == 5
      ensures quests == map[Bartho := Pending, Elara := Pending, Table := Pending, Stranger := Pending]
      ensures memories == {} && !hasRoom && !hasEaten
      ensures activeStat == None && statRolls == [] && !isGeneratingStat && !isSkillCheck
      ensures activeDC == 10 && activeQuestKey == None && currentScene == Hub
      ensures activeSuccessScene == None && activeFailScene == None && pendingNextScene == None
    {
      stats := map[STR := 0, DEX := 0, INT := 0, CHA := 0];
      gold := 5;
      quests := map[Bartho := Pending, Elara := Pending, Table := Pending, Stranger := Pending];
      memories := {};
      hasRoom, hasEaten := false, false;
      activeStat := None;
      statRolls := [];
      isGeneratingStat, isSkillCheck := false, false;
      activeDC := 10;
      activeSuccessScene, activeFailScene, activeQuestKey, pendingNextScene := None, None, None, None;
      currentScene := Hub;
      new;
      forall s: Stat ensures s in stats {
        match s { case STR => case DEX => case INT => case CHA => }
      }
      forall q: Quest ensures q in quests {
        match q { case Bartho => case Elara => case Table => case Stranger => }
      }
    }

    /** loadScene: only the record of the current scene key; the rendering is not modelled. */
    method LoadScene(scene: Scene)
      modifies this`currentScene
      ensures currentScene == scene
    {
      currentScene := scene;
    }

    /** buyRoom: with at least 2 gold, pay 2, take the room and return to Bartho; otherwise nothing. */
    method BuyRoom()
      requires Valid()
      modifies this`gold, this`hasRoom, this`currentScene
      ensures Valid()
      ensures old(gold) >= 2 ==> gold == old(gold) - 2 && hasRoom && currentScene == Npc(Bartho)
      ensures old(gold) < 2 ==> gold == old(gold) && hasRoom == old(hasRoom) && currentScene == old(currentScene)
    {
      if gold >= 2 {
        gold := gold - 2;
        hasRoom := true;
        LoadScene(Npc(Bartho));
      }
    }

    /** buyStew: with at least 1 gold, pay 1, eat and return to Elara; otherwise nothing. */
    method BuyStew()
      requires Valid()
      modifies this`gold, this`hasEaten, this`currentScene
      ensures Valid()
      ensures old(gold) >= 1 ==> gold == old(gold) - 1 && hasEaten && currentScene == Npc(Elara)
      ensures old(gold) < 1 ==> gold == old(gold) && hasEaten == old(hasEaten) && currentScene == old(currentScene)
    {
      if gold >= 1 {
        gold := gold - 1;
        hasEaten := true;
        LoadScene(Npc(Elara));
      }
    }

    /** startStatTest: unless the stat is already set, begin generating it from fresh rolls. */
    method StartStatTest(stat: Stat, next: Scene)
      requires Valid()
      modifies this`activeStat, this`pendingNextScene, this`isGeneratingStat, this`statRolls
      ensures Valid()
      ensures old(stats[stat]) > 0 ==>
        activeStat == old(activeStat) && pendingNextScene == old(pendingNextScene)
        && isGeneratingStat == old(isGeneratingStat) && statRolls == old(statRolls)
      ensures old(stats[stat]) <= 0 ==>
        activeStat == Some(stat) && pendingNextScene == Some(next) && isGeneratingStat && statRolls == []
    {
      if stats[stat] > 0 {
        return;
      }
      activeStat := Some(stat);
      pendingNextScene := Some(next);
      isGeneratingStat := true;
      statRolls := [];
    }

    /** startSkillCheck: arm a check of `stat` against `dc` that settles quest `key`. */
    method StartSkillCheck(stat: Stat, dc: int, win: Scene, lose: Scene, key: Quest)
      modifies this`isSkillCheck, this`activeStat, this`activeDC, this`activeSuccessScene,
        this`activeFailScene, this`activeQuestKey
      ensures isSkillCheck && activeStat == Some(stat) && activeDC == dc
      ensures activeSuccessScene == Some(win) && activeFailScene == Some(lose) && activeQuestKey == Some(key)
    {
      isSkillCheck := true;
      activeStat := Some(stat);
      activeDC := dc;
      activeSuccessScene := Some(win);
      activeFailScene := Some(lose);
      activeQuestKey := Some(key);
    }

    /**
     * handleDiceResult: while a stat is being generated, record the result and
     * on the third one set the stat to the sum; otherwise, while a skill check
     * is armed, settle its quest.  Returns whether a skill check succeeded,
     * which is what the closing timer needs.
     */
    method HandleDiceResult(result: int) returns (checked: Option<bool>)
      requires Valid()
      modifies this`statRolls, this`stats, this`isGeneratingStat, this`quests, this`memories
      ensures Valid()
      // generating a stat
      ensures old(isGeneratingStat) && old(activeStat).Some? ==>
        && checked == None
        && statRolls == old(statRolls) + [result]
        && quests == old(quests) && memories == old(memories)
        && (|statRolls| < 3 ==> stats == old(stats) && isGeneratingStat)
        && (|statRolls| == 3 ==>
              stats == old(stats)[old(activeStat).value := Sum(statRolls)] && !isGeneratingStat)
      // a skill check
      ensures !(old(isGeneratingStat) && old(activeStat).Some?) && isSkillCheck && activeStat.Some? ==>
        && checked == Some(CheckSucceeds(result, stats[activeStat.value], activeDC))
        && stats == old(stats) && statRolls == old(statRolls) && isGeneratingStat == old(isGeneratingStat)
        && (activeQuestKey.Some? ==>
              && quests == old(quests)[activeQuestKey.value := if checked.value then Success else Fail]
              && memories == old(memories) + {activeQuestKey.value})
        && (activeQuestKey.None? ==> quests == old(quests) && memories == old(memories))
      // neither
      ensures !(old(isGeneratingStat) && old(activeStat).Some?) && !(isSkillCheck && activeStat.Some?) ==>
        && checked == None && stats == old(stats) && statRolls == old(statRolls)
        && isGeneratingStat == old(isGeneratingStat) && quests == old(quests) && memories == old(memories)
    {
      checked := None;
      if isGeneratingStat && activeStat.Some? {
        statRolls := statRolls + [result];
        if |statRolls| >= 3 {
          var total := Sum(statRolls);
          stats := stats[activeStat.value := total];
          isGeneratingStat := false;
        }
      } else if isSkillCheck && activeStat.Some? {
        var mod := Modifier(stats[activeStat.value]);
        var total := result + mod;
        var success := total >= activeDC;
        if activeQuestKey.Some? {
          quests := quests[activeQuestKey.value := if success then Success else Fail];
          memories := memories + {activeQuestKey.value};
        }
        checked := Some(success);
      }
    }

    /** The timer after a stat is set: clear the active stat and go to the pending scene. */
    method FinishStatTest()
      modifies this`activeStat, this`currentScene
      ensures activeStat == None
      ensures currentScene == if old(pendingNextScene).Some? then old(pendingNextScene).value else old(currentScene)
    {
      activeStat := None;
      if pendingNextScene.Some? {
        LoadScene(pendingNextScene.value);
      }
    }

    /** The timer after a skill check: disarm it and go to the success or failure scene. */
    method FinishSkillCheck(success: bool)
      modifies this`isSkillCheck, this`activeStat, this`currentScene
      ensures !isSkillCheck && activeStat == None
      ensures var next := if success then old(activeSuccessScene) else old(activeFailScene);
        currentScene == if next.Some? then next.value else old(currentScene)
    {
      isSkillCheck := false;
      activeStat := None;
      var next := if success then activeSuccessScene else activeFailScene;
      if next.Some? {
        LoadScene(next.value);
      }
    }

    /** The choices of the scene of character `q`, each kept only when its condition holds. */
    function NpcChoices(q: Quest): (r: seq<Choice>)
      reads this
      requires Valid()
      ensures Sleep !in r && (forall c :: c in r ==> !c.Check?)
      ensures RentRoom in r <==> q == Bartho && !hasRoom && gold >= 2
      ensures EatStew in r <==> q == Elara && !hasEaten && gold >= 1
      ensures forall p :: RollStat(p) in r <==> p == q && quests[q] == Pending && stats[StatOf(q)] == 0
      ensures forall p :: Attempt(p) in r <==> p == q && quests[q] == Pending && stats[StatOf(q)] > 0
      ensures forall p :: RecallMemory(p) in r <==> p == q && q in memories
    {
      var rent := if q == Bartho && !hasRoom && gold >= 2 then [RentRoom] else [];
      var stew := if q == Elara && !hasEaten && gold >= 1 then [EatStew] else [];
      var roll := if quests[q] == Pending && stats[StatOf(q)] == 0 then [RollStat(q)] else [];
      var attempt := if quests[q] == Pending && stats[StatOf(q)] > 0 then [Attempt(q)] else [];
      var recall := if q in memories then [RecallMemory(q)] else [];
      var r := rent + stew + roll + attempt + recall + [ChatAI(q), Goto(Hub)];
      assert forall c :: c in r <==> c in rent || c in stew || c in roll || c in attempt || c in recall || c == ChatAI(q) || c == Goto(Hub);
      r
    }

    /**
     * The choices `scene` shows, in order, after each choice's condition is
     * evaluated against the current records.
     */
    function Offered(scene: Scene): (r: seq<Choice>)
      reads this
      requires Valid()
      ensures Sleep in r <==> scene == Room && hasRoom && hasEaten
      ensures RentRoom in r <==> scene == Npc(Bartho) && !hasRoom && gold >= 2
      ensures EatStew in r <==> scene == Npc(Elara) && !hasEaten && gold >= 1
      ensures forall q :: RollStat(q) in r <==> scene == Npc(q) && quests[q] == Pending && stats[StatOf(q)] == 0
      ensures forall q :: Attempt(q) in r <==> scene == Npc(q) && quests[q] == Pending && stats[StatOf(q)] > 0
      ensures forall q :: RecallMemory(q) in r <==> scene == Npc(q) && q in memories
      ensures forall q :: Check(StatOf(q), DcOf(q), Win(q), Lose(q), q) in r <==> scene == PostStat(q)
      ensures forall c :: c in r && c.Check? ==>
        scene == PostStat(c.key) && c.stat == StatOf(c.key) && c.dc == DcOf(c.key)
        && c.win == Win(c.key) && c.lose == Lose(c.key)
    {
      match scene
      case Exterior => [Goto(Hub)]
      case Hub => [Goto(Npc(Bartho)), Goto(Npc(Elara)), Goto(Npc(Table)), Goto(Npc(Stranger)), Goto(Room), BattleArena]
      case Npc(q) => NpcChoices(q)
      case PostStat(q) => [Check(StatOf(q), DcOf(q), Win(q), Lose(q), q)]
      case Win(_) => [Goto(Hub)]
      case Lose(_) => [Goto(Hub)]
      case Room => (if hasRoom && hasEaten then [Sleep] else []) + [Goto(Hub)]
    }
  }
}
