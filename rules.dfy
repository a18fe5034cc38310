/**
 * The engine's fixed rules: its constants, the star rating, the reward of a correct
 * answer, the penalty of a wrong one, the mistake list, the verdict on a caught
 * object and the removal of an object from the live collection.
 */
module Rules {
  import opened Types

  const WaveDuration: int := 12
  const MaxForestObjects: int := 14
  const MaxScreenObjects: int := 15
  const IdleTimeoutMs: int := 40000
  const LaneCooldownMs: int := 2500
  const SeaLanes: int := 6
  const SpeedWindowMs: int := 2000
  const WrongPenalty: int := 5
  const DropPadding: real := 30.0
  const StartLives: int := 3

  /** Stars for a final score: three from 120, two from 50, otherwise one. */
  function CalculateStars(finalScore: int): (stars: int)
    ensures 1 <= stars <= 3
    ensures stars == 3 <==> finalScore >= 120
    ensures stars == 1 <==> finalScore < 50
  {
    if finalScore >= 120 then 3
    else if finalScore >= 50 then 2
    else 1
  }

  /** The statistics `triggerGameOver` hands to the game-over screen. */
  function FinalStats(finalScore: int, finalLives: int, wave: int, mistakes: seq<string>,
                      level: GameLevel): (stats: GameStats)
    ensures stats.score == finalScore && stats.lives == finalLives
    ensures stats.wave == wave && stats.mistakes == mistakes && stats.level == level
    ensures 1 <= stats.stars <= 3 && stats.stars == CalculateStars(finalScore)
  {
    GameStats(finalScore, finalLives, wave, mistakes, level, CalculateStars(finalScore))
  }

  /** A spawn time counts only when present and non-zero (the source tests it for truthiness). */
  predicate Quick(spawnTime: Option<int>, now: int) {
    spawnTime.Some? && spawnTime.value != 0 && now - spawnTime.value < SpeedWindowMs
  }

  /** Points for a correct answer: 10, or 30 for a bonus object, and 5 more when caught quickly. */
  function Reward(isBonus: bool, spawnTime: Option<int>, now: int): (points: nat)
    ensures points in {10, 15, 30, 35}
    ensures points >= 30 <==> isBonus
    ensures points % 10 == 5 <==> Quick(spawnTime, now)
  {
    (if isBonus then 30 else 10) + (if Quick(spawnTime, now) then 5 else 0)
  }

  /** The score after a wrong answer: five less, but never below zero. */
  function ScoreAfterWrong(score: nat): (next: nat)
    ensures next <= score
    ensures next == 0 || score - next == WrongPenalty
    ensures next == 0 ==> score <= WrongPenalty
  {
    if score >= WrongPenalty then score - WrongPenalty else 0
  }

  predicate NoDup(s: seq<string>) {
    forall i, j :: 0 <= i < j < |s| ==> s[i] != s[j]
  }

  /**
   * Adding a letter id to the mistake set. The set is handed out in insertion order,
   * so it is kept as a sequence without duplicates.
   */
  function AddMistake(mistakes: seq<string>, id: string): (next: seq<string>)
    requires NoDup(mistakes)
    ensures NoDup(next)
    ensures forall x :: x in next <==> x in mistakes || x == id
    ensures |mistakes| <= |next| <= |mistakes| + 1 && next[..|mistakes|] == mistakes
  {
    if id in mistakes then mistakes else mistakes + [id]
  }

  /** Recording the same letter twice leaves the set as recording it once. */
  lemma MistakeIdempotent(mistakes: seq<string>, id: string)
    requires NoDup(mistakes)
    ensures AddMistake(AddMistake(mistakes, id), id) == AddMistake(mistakes, id)
  {
  }

  /**
   * The verdict on a caught object: level 2 compares the displayed string with the target
   * form, level 1 compares the letter id. The stored `isTarget` flag plays no part.
   */
  predicate IsCorrect(level: GameLevel, o: Entity, target: Letter, targetForm: string) {
    if level == 2 then o.letter == targetForm else o.originalLetterId == target.id
  }

  lemma CorrectnessRule(level: GameLevel, o: Entity, target: Letter, targetForm: string, flag: bool, shown: string)
    ensures IsCorrect(level, o.(isTarget := flag), target, targetForm) == IsCorrect(level, o, target, targetForm)
    ensures level == 1 ==> IsCorrect(level, o.(letter := shown), target, targetForm) == IsCorrect(level, o, target, targetForm)
    ensures level == 2 && o.letter != targetForm ==> !IsCorrect(level, o.(originalLetterId := target.id), target, targetForm)
  {
  }

  /** The drop zone's box widened by the padding on every side, bounds included. */
  predicate InsideDropZone(x: real, y: real, box: Rect) {
    x >= box.left - DropPadding && x <= box.right + DropPadding &&
    y >= box.top - DropPadding && y <= box.bottom + DropPadding
  }

  predicate UniqueIds(objs: seq<Entity>) {
    forall i, j :: 0 <= i < j < |objs| ==> objs[i].id != objs[j].id
  }

  /** The position of the first object with the id, if any. */
  function Find(objs: seq<Entity>, id: nat): (r: Option<nat>)
    ensures r.Some? ==> r.value < |objs| && objs[r.value].id == id
    ensures r.Some? ==> forall j :: 0 <= j < r.value ==> objs[j].id != id
    ensures r.None? ==> forall j :: 0 <= j < |objs| ==> objs[j].id != id
  {
    if objs == [] then None
    else if objs[0].id == id then Some(0)
    else match Find(objs[1..], id)
      case None => None
      case Some(k) => Some(k + 1)
  }

  /** The objects whose id is not `id`, in their original order. */
  function RemoveId(objs: seq<Entity>, id: nat): (r: seq<Entity>)
    ensures forall o :: o in r ==> o in objs && o.id != id
    ensures |r| <= |objs|
  {
    if objs == [] then []
    else (if objs[0].id == id then [] else [objs[0]]) + RemoveId(objs[1..], id)
  }

  /** The filter keeps every object with another id. */
  lemma {:induction false} RemoveIdKeeps(objs: seq<Entity>, id: nat, o: Entity)
    requires o in objs && o.id != id
    ensures o in RemoveId(objs, id)
  {
    if objs[0] != o {
      RemoveIdKeeps(objs[1..], id, o);
    }
  }

  lemma {:induction false} RemoveAbsent(objs: seq<Entity>, id: nat)
    requires forall j :: 0 <= j < |objs| ==> objs[j].id != id
    ensures RemoveId(objs, id) == objs
  {
    if objs != [] {
      RemoveAbsent(objs[1..], id);
    }
  }

  /** With unique ids, removing an object's id drops exactly that object and keeps the rest in order. */
  lemma {:induction false} RemoveExactlyOne(objs: seq<Entity>, k: nat)
    requires UniqueIds(objs) && k < |objs|
    ensures RemoveId(objs, objs[k].id) == objs[..k] + objs[k + 1..]
  {
    var tail := objs[1..];
    assert UniqueIds(tail) by {
      forall i, j | 0 <= i < j < |tail| ensures tail[i].id != tail[j].id {
        assert tail[i] == objs[i + 1] && tail[j] == objs[j + 1];
      }
    }
    if k == 0 {
      forall j | 0 <= j < |tail| ensures tail[j].id != objs[0].id {
        assert tail[j] == objs[j + 1];
      }
      RemoveAbsent(tail, objs[0].id);
    } else {
      assert objs[0].id != objs[k].id;
      RemoveExactlyOne(tail, k - 1);
      assert tail[k - 1] == objs[k];
      assert tail[..k - 1] + tail[k..] == objs[1..k] + objs[k + 1..];
      assert [objs[0]] + objs[1..k] == objs[..k];
    }
  }
}
