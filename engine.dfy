/**
 * The game engine's state machine (`components/GameEngine.tsx`) as a class. Each timer
 * callback and input event is a method; randomness and the clock are arguments.
 * Rendering, audio and the React scheduling around these steps are not modelled.
 */
module Engine {
  import opened Types
  import opened Rules
  import opened Bag
  import opened Spawn
  import opened Forest

  /** The letter dataset: non-empty, and every letter has another letter with a different id. */
  predicate DatasetOk(letters: seq<Letter>) {
    |letters| > 0 && forall l :: l in letters ==> OtherLetters(letters, l.id) != []
  }

  /** The population cap of a theme: 14 on the forest tree, 15 on screen otherwise. */
  function Cap(theme: Theme): int {
    if theme == Forest then MaxForestObjects else MaxScreenObjects
  }

  /** Forest objects keep their spacing: each is clear of every object placed before it. */
  predicate Spread(objs: seq<Entity>) {
    forall i, j :: 0 <= i < j < |objs| ==> !TooCloseTo(objs[i], Pos(objs[j]))
  }

  /** What the live collection keeps for the current target. */
  predicate ObjectsOk(objs: seq<Entity>, theme: Theme, level: GameLevel, target: Letter,
                      targetForm: string, nextId: nat) {
    |objs| <= Cap(theme) && UniqueIds(objs) &&
    (forall i :: 0 <= i < |objs| ==>
      objs[i].id < nextId && Placed(theme, objs[i]) && Honest(level, target, targetForm, objs[i])) &&
    (theme == Forest ==> Spread(objs))
  }

  lemma AppendKeepsOk(objs: seq<Entity>, o: Entity, theme: Theme, level: GameLevel, target: Letter,
                      targetForm: string, nextId: nat)
    requires ObjectsOk(objs, theme, level, target, targetForm, nextId)
    requires |objs| < Cap(theme) && o.id == nextId
    requires Placed(theme, o) && Honest(level, target, targetForm, o)
    requires theme == Forest ==> Separated(objs, Pos(o))
    ensures ObjectsOk(objs + [o], theme, level, target, targetForm, nextId + 1)
  {
    var s := objs + [o];
    forall i | 0 <= i < |s| ensures s[i] == (if i < |objs| then objs[i] else o) {
    }
    if theme == Forest {
      forall i, j | 0 <= i < j < |s| ensures !TooCloseTo(s[i], Pos(s[j])) {
        if j == |objs| {
          assert !TooCloseTo(objs[i], Pos(o));
        }
      }
    }
  }

  lemma SpliceKeepsOk(objs: seq<Entity>, k: nat, theme: Theme, level: GameLevel, target: Letter,
                      targetForm: string, nextId: nat)
    requires ObjectsOk(objs, theme, level, target, targetForm, nextId) && k < |objs|
    ensures ObjectsOk(objs[..k] + objs[k + 1..], theme, level, target, targetForm, nextId)
  {
    var s := objs[..k] + objs[k + 1..];
    assert |s| == |objs| - 1;
    forall i | 0 <= i < |s| ensures s[i] == objs[if i < k then i else i + 1] {
    }
    forall i, j | 0 <= i < j < |s| ensures s[i].id != s[j].id {
      assert s[i] == objs[if i < k then i else i + 1];
      assert s[j] == objs[if j < k then j else j + 1];
    }
    if theme == Forest {
      forall i, j | 0 <= i < j < |s| ensures !TooCloseTo(s[i], Pos(s[j])) {
        assert s[i] == objs[if i < k then i else i + 1];
        assert s[j] == objs[if j < k then j else j + 1];
      }
    }
  }

  /** Filtering an id out of the live collection keeps everything it promises. */
  lemma RemoveKeepsOk(objs: seq<Entity>, id: nat, theme: Theme, level: GameLevel, target: Letter,
                      targetForm: string, nextId: nat)
    requires ObjectsOk(objs, theme, level, target, targetForm, nextId)
    ensures ObjectsOk(RemoveId(objs, id), theme, level, target, targetForm, nextId)
  {
    match Find(objs, id)
    case None =>
      RemoveAbsent(objs, id);
    case Some(k) =>
      RemoveExactlyOne(objs, k);
      SpliceKeepsOk(objs, k, theme, level, target, targetForm, nextId);
  }

  /** Some object already placed carries the letter `id`. */
  predicate HasLetter(existing: seq<Entity>, id: string) {
    exists i :: 0 <= i < |existing| && existing[i].originalLetterId == id
  }

  /** A forest placement is forced to be a target when none is present and the tree is empty or nearly full. */
  predicate ForcedTarget(existing: seq<Entity>, id: string) {
    !HasLetter(existing, id) && (|existing| == 0 || |existing| >= MaxForestObjects - 2)
  }

  /** The draws a forest rebuild uses: one set per placement. */
  predicate WaveDiceOk(dice: seq<Dice>) {
    |dice| == MaxForestObjects && forall i :: 0 <= i < |dice| ==> DiceOk(dice[i])
  }

  /** The object shows and names what `Dress` chose for its spawn decision, and its bonus flag is that draw's. */
  predicate Dressed(level: GameLevel, letters: seq<Letter>, tgt: Letter, form: string, d: Dice, o: Entity) {
    OtherLetters(letters, tgt.id) != [] &&
    var look := Dress(level, letters, tgt, form, o.isTarget, d);
    o.letter == look.display && o.originalLetterId == look.source.id && o.isBonus == BonusFlag(o.isTarget, d.bonus)
  }

  /** A dressed distractor that is not tricky names another letter of the dataset. */
  lemma DressedDistractorIsOtherLetter(level: GameLevel, letters: seq<Letter>, tgt: Letter, form: string,
                                       d: Dice, o: Entity)
    requires Dressed(level, letters, tgt, form, d, o) && !o.isTarget && !UseTricky(level, d.tricky)
    ensures o.originalLetterId != tgt.id
    ensures exists l :: l in letters && l.id == o.originalLetterId
  {
    var look := Dress(level, letters, tgt, form, o.isTarget, d);
    assert look.source in letters && look.source.id == o.originalLetterId;
  }

  /**
   * What one forest placement against `existing` yields: no object exactly when no sample
   * fits; otherwise an object on the first sample that fits, dressed for its decision,
   * and a target whenever the placement forces one.
   */
  ghost predicate Created(level: GameLevel, letters: seq<Letter>, tgt: Letter, form: string,
                          existing: seq<Entity>, d: Dice, now: int, r: Option<Entity>)
  {
    DiceOk(d) &&
    (r.None? <==> NoFit(existing, d.samples)) &&
    (r.Some? ==>
      Placed(Forest, r.value) && Acceptable(existing, Pos(r.value)) &&
      FirstFit(existing, d.samples, Pos(r.value)) && r.value.spawnTime == Some(now) &&
      Dressed(level, letters, tgt, form, d, r.value) && Honest(level, tgt, form, r.value) &&
      (ForcedTarget(existing, tgt.id) ==> r.value.isTarget))
  }

  /** The objects a rebuild keeps: those of its placements that produced one, in order. */
  function Kept(rs: seq<Option<Entity>>): (objs: seq<Entity>)
    ensures |objs| <= |rs|
    ensures forall o :: o in objs <==> Some(o) in rs
  {
    if rs == [] then []
    else Kept(rs[..|rs| - 1]) + (if rs[|rs| - 1].Some? then [rs[|rs| - 1].value] else [])
  }

  /** Each placement of a rebuild ran on its own draws, against the objects kept before it. */
  ghost predicate Rebuild(level: GameLevel, letters: seq<Letter>, tgt: Letter, form: string,
                          dice: seq<Dice>, now: int, rs: seq<Option<Entity>>)
  {
    |rs| <= |dice| &&
    (rs != [] ==>
      var before := rs[..|rs| - 1];
      Rebuild(level, letters, tgt, form, dice, now, before) &&
      Created(level, letters, tgt, form, Kept(before), dice[|rs| - 1], now, rs[|rs| - 1]))
  }

  /**
   * A rebuild under way: `placed` holds what the placements so far kept, and keeps the
   * promises of `Spreading`.
   */
  ghost predicate Growing(level: GameLevel, letters: seq<Letter>, tgt: Letter, form: string, dice: seq<Dice>,
                          now: int, id0: nat, rs: seq<Option<Entity>>, placed: seq<Entity>)
  {
    WaveDiceOk(dice) && placed == Kept(rs) && Rebuild(level, letters, tgt, form, dice, now, rs) &&
    Spreading(level, tgt, form, dice, id0, |rs|, placed)
  }

  /**
   * What `n` placements have put on the tree: at most `n` objects, ids from `id0` in order, the collection's
   * invariant, a target first, and nothing only when no spot was found on the bare tree.
   */
  ghost predicate Spreading(level: GameLevel, tgt: Letter, form: string, dice: seq<Dice>, id0: nat, n: nat,
                            placed: seq<Entity>)
    requires WaveDiceOk(dice) && n <= |dice|
  {
    |placed| <= n &&
    (forall j :: 0 <= j < |placed| ==> placed[j].id == id0 + j) &&
    ObjectsOk(placed, Forest, level, tgt, form, id0 + |placed|) &&
    (placed != [] ==> placed[0].isTarget && placed[0].originalLetterId == tgt.id) &&
    (placed == [] ==> forall j :: 0 <= j < n ==> NoFit([], dice[j].samples))
  }

  /** A placement that found a spot, kept with the next id, carries the promises of `Spreading` one step on. */
  lemma SpreadStep(level: GameLevel, tgt: Letter, form: string, dice: seq<Dice>, id0: nat, n: nat,
                   placed: seq<Entity>, o: Entity)
    requires WaveDiceOk(dice) && n < |dice| && Spreading(level, tgt, form, dice, id0, n, placed)
    requires Placed(Forest, o) && Separated(placed, Pos(o)) && Honest(level, tgt, form, o)
    requires placed == [] ==> o.isTarget
    requires o.id == id0 + |placed|
    ensures Spreading(level, tgt, form, dice, id0, n + 1, placed + [o])
  {
    var s := placed + [o];
    AppendKeepsOk(placed, o, Forest, level, tgt, form, id0 + |placed|);
    assert ObjectsOk(s, Forest, level, tgt, form, id0 + |s|);
    forall j | 0 <= j < |s| ensures s[j].id == id0 + j {
      if j < |placed| { assert s[j] == placed[j]; }
    }
    assert s != [] && s[0].isTarget && s[0].originalLetterId == tgt.id by {
      if placed != [] { assert s[0] == placed[0]; }
    }
  }

  /** A placement that found no spot leaves what `Spreading` promises, one placement on. */
  lemma SpreadSkip(level: GameLevel, tgt: Letter, form: string, dice: seq<Dice>, id0: nat, n: nat,
                   placed: seq<Entity>)
    requires WaveDiceOk(dice) && n < |dice| && Spreading(level, tgt, form, dice, id0, n, placed)
    requires NoFit(placed, dice[n].samples)
    ensures Spreading(level, tgt, form, dice, id0, n + 1, placed)
  {
  }

  /** A placement's outcome, kept with the next id, extends a rebuild under way. */
  lemma GrowStep(level: GameLevel, letters: seq<Letter>, tgt: Letter, form: string, dice: seq<Dice>,
                 now: int, id0: nat, rs: seq<Option<Entity>>, placed: seq<Entity>, r: Option<Entity>)
    requires Growing(level, letters, tgt, form, dice, now, id0, rs, placed) && |rs| < |dice|
    requires Created(level, letters, tgt, form, placed, dice[|rs|], now, r)
    requires r.Some? ==> r.value.id == id0 + |placed|
    ensures r.None? ==> Growing(level, letters, tgt, form, dice, now, id0, rs + [r], placed)
    ensures r.Some? ==> Growing(level, letters, tgt, form, dice, now, id0, rs + [r], placed + [r.value])
  {
    RebuildStep(level, letters, tgt, form, dice, now, rs, r);
    if r.Some? {
      if placed == [] {
        assert ForcedTarget(placed, tgt.id);
      }
      SpreadStep(level, tgt, form, dice, id0, |rs|, placed, r.value);
    } else {
      SpreadSkip(level, tgt, form, dice, id0, |rs|, placed);
    }
  }

  /** Fourteen placements make a rebuilt forest that keeps the collection's invariant. */
  lemma GrowingDone(level: GameLevel, letters: seq<Letter>, tgt: Letter, form: string, dice: seq<Dice>,
                    now: int, id0: nat, rs: seq<Option<Entity>>, placed: seq<Entity>)
    requires Growing(level, letters, tgt, form, dice, now, id0, rs, placed) && |rs| == MaxForestObjects
    ensures ObjectsOk(placed, Forest, level, tgt, form, id0 + |placed|)
    ensures Reshuffled(level, letters, tgt, form, dice, now, id0, placed, id0 + |placed|)
  {
  }

  /** One more placement extends a rebuild, and its object, if any, is kept at the end. */
  lemma RebuildStep(level: GameLevel, letters: seq<Letter>, tgt: Letter, form: string,
                    dice: seq<Dice>, now: int, rs: seq<Option<Entity>>, r: Option<Entity>)
    requires Rebuild(level, letters, tgt, form, dice, now, rs) && |rs| < |dice|
    requires Created(level, letters, tgt, form, Kept(rs), dice[|rs|], now, r)
    ensures Rebuild(level, letters, tgt, form, dice, now, rs + [r])
    ensures Kept(rs + [r]) == Kept(rs) + (if r.Some? then [r.value] else [])
  {
    assert (rs + [r])[..|rs|] == rs;
  }

  /**
   * `objects` is a fresh forest for `tgt` shown as `form`: the objects kept by fourteen
   * placements on `dice`, carrying the ids from `id0` in order, with `nextId` just past them.
   * When it is empty, no placement found any spot on the bare tree; otherwise its first
   * object is a target.
   */
  ghost predicate Reshuffled(level: GameLevel, letters: seq<Letter>, tgt: Letter, form: string, dice: seq<Dice>,
                             now: int, id0: nat, objects: seq<Entity>, nextId: nat)
    requires WaveDiceOk(dice)
  {
    (exists rs :: |rs| == MaxForestObjects && Rebuild(level, letters, tgt, form, dice, now, rs) &&
                 objects == Kept(rs)) &&
    nextId == id0 + |objects| &&
    (forall i :: 0 <= i < |objects| ==> objects[i].id == id0 + i) &&
    (objects != [] ==> objects[0].isTarget && objects[0].originalLetterId == tgt.id) &&
    (objects == [] ==> forall i :: 0 <= i < MaxForestObjects ==> NoFit([], dice[i].samples))
  }

  /**
   * The object a sea or sky spawn creates: dressed as the spawn decision says, entering
   * from the right in `lane` at sea or rising from a random point in the sky.
   */
  function Spawned(theme: Theme, level: GameLevel, letters: seq<Letter>, target: Letter, targetForm: string,
                   isTarget: bool, lane: int, d: Dice, id: nat, now: int): (o: Entity)
    requires theme != Forest && DiceOk(d) && OtherLetters(letters, target.id) != []
    requires theme == Sea ==> 1 <= lane <= SeaLanes
    ensures Placed(theme, o) && Honest(level, target, targetForm, o)
    ensures o.id == id && o.isTarget == isTarget && o.spawnTime == Some(now)
    ensures o.isBonus == BonusFlag(isTarget, d.bonus) && Dressed(level, letters, target, targetForm, d, o)
    ensures theme == Sea ==> o.lane == Some(lane)
  {
    var look := Dress(level, letters, target, targetForm, isTarget, d);
    var o := if theme == Sea then SeaEntity(id, look, isTarget, lane, d, now) else SkyEntity(id, look, isTarget, d, now);
    DressedIsHonest(level, letters, target, targetForm, isTarget, d, o);
    o
  }

  /**
   * One bag draw takes the bag and cycle `before`/`cycle0` to `after`/`cycle1` with the
   * decision `isTarget`: a non-empty bag loses its last slot, which is the decision and joins
   * the cycle; only an empty bag is refilled, and the decision then starts a new cycle.
   */
  predicate Drew(before: seq<bool>, cycle0: seq<bool>, after: seq<bool>, cycle1: seq<bool>, isTarget: bool) {
    if before != [] then
      isTarget == before[|before| - 1] && after == before[..|before| - 1] && cycle1 == cycle0 + [isTarget]
    else
      |after| == |FreshBag| - 1 && cycle1 == [isTarget]
  }

  /** `after` is `before` with one new object, carrying the id `id`, added at the end. */
  predicate Grown(before: seq<Entity>, after: seq<Entity>, id: nat) {
    |after| == |before| + 1 && after[..|before|] == before && after[|before|].id == id
  }

  ghost predicate Inv(level: GameLevel, theme: Theme, letters: seq<Letter>, lives: int, wave: nat, timeLeft: int,
    target: Option<Letter>, targetForm: string, objects: seq<Entity>, bag: seq<bool>, cycle: seq<bool>,
    mistakes: seq<string>, nextId: nat, report: Option<GameStats>)
  {
      DatasetOk(letters) &&
      1 <= wave && 1 <= timeLeft <= WaveDuration &&
      0 <= lives <= StartLives && (report.None? ==> 1 <= lives) &&
      (target.None? ==> objects == []) &&
      (target.Some? ==>
        target.value in letters &&
        (level == 1 ==> targetForm == target.value.isolated) &&
        (level == 2 ==> targetForm in PositionalForms(target.value)) &&
        ObjectsOk(objects, theme, level, target.value, targetForm, nextId)) &&
      BagOk(bag, cycle) && NoDup(mistakes) &&
      (report.Some? ==> report.value.level == level &&
                        report.value.stars == CalculateStars(report.value.score))
  }

  class GameRun {
    const level: GameLevel
    const theme: Theme
    const letters: seq<Letter>

    var score: nat
    var lives: int
    var wave: nat
    var timeLeft: int
    var paused: bool
    var target: Option<Letter>
    var targetForm: string
    var objects: seq<Entity>
    var bag: seq<bool>
    /** The spawn decisions drawn since the bag was last refilled. */
    ghost var cycle: seq<bool>
    var laneCooldown: map<int, int>
    var mistakes: seq<string>
    /** The next object id; stands in for the source's time-and-random string ids. */
    var nextId: nat
    /** When the idle timer fires, in the same milliseconds as `now`. */
    var idleDeadline: int
    /** The statistics handed to `onGameOver`; the run is over once this is set. */
    var report: Option<GameStats>

    ghost predicate Valid()
      reads this
    {
      Inv(level, theme, letters, lives, wave, timeLeft, target, targetForm, objects, bag, cycle, mistakes, nextId, report)
    }

    /** The countdown and spawn intervals are armed: a target exists, the game is not paused and not over. */
    ghost predicate Running()
      reads this
    {
      report.None? && !paused && target.Some?
    }

    /** A click or drop on `id` reaches a verdict. */
    ghost predicate Resolvable(id: nat)
      reads this
    {
      Running() && Find(objects, id).Some?
    }

    /** The state a freshly mounted engine starts in, before its first wave. */
    constructor (level: GameLevel, theme: Theme, letters: seq<Letter>, now: int)
      requires DatasetOk(letters)
      ensures Valid()
      ensures this.level == level && this.theme == theme && this.letters == letters
      ensures score == 0 && lives == StartLives && wave == 1 && timeLeft == WaveDuration && !paused
      ensures target.None? && objects == [] && bag == [] && laneCooldown == map[] && mistakes == []
      ensures report.None? && idleDeadline == now + IdleTimeoutMs
    {
      this.level, this.theme, this.letters := level, theme, letters;
      score, lives, wave, timeLeft, paused := 0, StartLives, 1, WaveDuration, false;
      target, targetForm, objects := None, "", [];
      bag, cycle, laneCooldown, mistakes := [], [], map[], [];
      nextId, idleDeadline, report := 0, now + IdleTimeoutMs, None;
    }

    /** `getNextSpawnType`: refill and shuffle the bag when empty, then pop its last slot. */
    method NextSpawnType(picks: seq<nat>) returns (isTarget: bool)
      requires BagOk(bag, cycle) && |picks| == ShuffleDraws
      modifies this`bag, this`cycle
      ensures BagOk(bag, cycle)
      ensures old(bag) != [] ==>
        isTarget == old(bag)[|old(bag)| - 1] && bag == old(bag)[..|old(bag)| - 1] &&
        cycle == old(cycle) + [isTarget]
      ensures old(bag) == [] ==> |bag| == |FreshBag| - 1 && cycle == [isTarget]
      ensures |cycle| == |FreshBag| ==> bag == [] && multiset(cycle)[true] == 3
    {
      if bag == [] {
        Refill(picks);
      }
      isTarget := Pop();
    }

    /** A bag draw between two steps of a running game, which keeps the run's invariant. */
    method DrawSpawnType(picks: seq<nat>) returns (isTarget: bool)
      requires Valid() && |picks| == ShuffleDraws
      modifies this`bag, this`cycle
      ensures Valid()
      ensures Drew(old(bag), old(cycle), bag, cycle, isTarget)
    {
      isTarget := NextSpawnType(picks);
    }

    /** An empty bag is refilled with a shuffled fresh bag, which starts a new cycle. */
    method Refill(picks: seq<nat>)
      requires |picks| == ShuffleDraws
      modifies this`bag, this`cycle
      ensures BagOk(bag, cycle) && cycle == [] && |bag| == |FreshBag|
    {
      bag := ShuffledBag(picks);
      cycle := [];
      FreshCounts();
    }

    /** Take the last slot of a non-empty bag. */
    method Pop() returns (isTarget: bool)
      requires BagOk(bag, cycle) && bag != []
      modifies this`bag, this`cycle
      ensures BagOk(bag, cycle)
      ensures isTarget == old(bag)[|old(bag)| - 1] && bag == old(bag)[..|old(bag)| - 1]
      ensures cycle == old(cycle) + [isTarget]
      ensures |cycle| == |FreshBag| ==> bag == [] && multiset(cycle)[true] == 3
    {
      PopKeepsBag(bag, cycle);
      isTarget := bag[|bag| - 1];
      cycle := cycle + [isTarget];
      bag := bag[..|bag| - 1];
      if |cycle| == |FreshBag| {
        CycleRatio(bag, cycle);
      }
    }

    /**
     * `createForestObject`: sample a spot; when one is found, decide target or not (forced,
     * or from the bag) and dress the object. No spot, no object, and the bag is untouched.
     */
    method CreateForestObject(tgt: Letter, form: string, existing: seq<Entity>, d: Dice, now: int)
      returns (r: Option<Entity>)
      requires BagOk(bag, cycle) && DiceOk(d) && OtherLetters(letters, tgt.id) != []
      modifies this`bag, this`cycle
      ensures BagOk(bag, cycle)
      ensures Created(level, letters, tgt, form, existing, d, now, r)
      ensures r.Some? ==> r.value.id == nextId
      ensures r.None? || ForcedTarget(existing, tgt.id) ==> bag == old(bag) && cycle == old(cycle)
      ensures r.Some? && !ForcedTarget(existing, tgt.id) ==>
        Drew(old(bag), old(cycle), bag, cycle, r.value.isTarget)
    {
      var spot, attempts := Place(existing, d.samples);
      if spot.None? {
        return None;
      }
      assert FirstFit(existing, d.samples, spot.value) by {
        assert SamplePoint(d.samples[attempts - 1]) == spot.value;
      }
      var isTarget := ForestDecision(tgt, existing, d.shuffle);
      var look := Dress(level, letters, tgt, form, isTarget, d);
      var o := ForestEntity(nextId, look, isTarget, spot.value, d, now);
      DressedIsHonest(level, letters, tgt, form, isTarget, d, o);
      r := Some(o);
    }

    /** A forest object's decision: forced to a target when none is on the tree and it is empty or nearly full, else drawn from the bag. */
    method ForestDecision(tgt: Letter, existing: seq<Entity>, picks: seq<nat>) returns (isTarget: bool)
      requires BagOk(bag, cycle) && |picks| == ShuffleDraws
      modifies this`bag, this`cycle
      ensures BagOk(bag, cycle)
      ensures ForcedTarget(existing, tgt.id) ==> isTarget && bag == old(bag) && cycle == old(cycle)
      ensures !ForcedTarget(existing, tgt.id) ==> Drew(old(bag), old(cycle), bag, cycle, isTarget)
    {
      var hasTarget := HasLetter(existing, tgt.id);
      var count := |existing|;
      if !hasTarget && count == 0 {
        isTarget := true;
      } else if !hasTarget && count >= MaxForestObjects - 2 {
        isTarget := true;
      } else {
        isTarget := NextSpawnType(picks);
      }
    }

    /**
     * `reshuffleForest`: empty the bag, then run fourteen placements, each against the
     * objects placed so far, and make the result the live collection.
     */
    method ReshuffleForest(tgt: Letter, form: string, dice: seq<Dice>, now: int)
      requires BagOk(bag, cycle) && DatasetOk(letters) && tgt in letters && WaveDiceOk(dice)
      modifies this`bag, this`cycle, this`nextId, this`objects
      ensures BagOk(bag, cycle)
      ensures ObjectsOk(objects, Forest, level, tgt, form, nextId)
      ensures Reshuffled(level, letters, tgt, form, dice, now, old(nextId), objects, nextId)
    {
      bag := [];
      cycle := [];
      var placed := PlaceAll(tgt, form, dice, now);
      objects := placed;
    }

    /** The fourteen placements of a rebuild, each against the objects placed before it. */
    method PlaceAll(tgt: Letter, form: string, dice: seq<Dice>, now: int) returns (placed: seq<Entity>)
      requires BagOk(bag, cycle) && DatasetOk(letters) && tgt in letters && WaveDiceOk(dice)
      modifies this`bag, this`cycle, this`nextId
      ensures BagOk(bag, cycle)
      ensures ObjectsOk(placed, Forest, level, tgt, form, nextId)
      ensures Reshuffled(level, letters, tgt, form, dice, now, old(nextId), placed, nextId)
    {
      placed := [];
      ghost var rs: seq<Option<Entity>> := [];
      ghost var id0 := nextId;
      for i := 0 to MaxForestObjects
        invariant |rs| == i && BagOk(bag, cycle) && nextId == id0 + |placed|
        invariant Growing(level, letters, tgt, form, dice, now, id0, rs, placed)
      {
        rs, placed := PlaceNext(tgt, form, dice, i, now, id0, rs, placed);
      }
      GrowingDone(level, letters, tgt, form, dice, now, id0, rs, placed);
    }

    /** One placement of a rebuild: the object it creates, if any, is kept with the next id. */
    method PlaceNext(tgt: Letter, form: string, dice: seq<Dice>, i: nat, now: int, ghost id0: nat,
                     ghost rs: seq<Option<Entity>>, placed: seq<Entity>)
      returns (ghost rs': seq<Option<Entity>>, placed': seq<Entity>)
      requires BagOk(bag, cycle) && DatasetOk(letters) && tgt in letters && |rs| == i < |dice|
      requires Growing(level, letters, tgt, form, dice, now, id0, rs, placed) && nextId == id0 + |placed|
      modifies this`bag, this`cycle, this`nextId
      ensures BagOk(bag, cycle) && |rs'| == |rs| + 1 && nextId == id0 + |placed'|
      ensures Growing(level, letters, tgt, form, dice, now, id0, rs', placed')
    {
      var r := CreateForestObject(tgt, form, placed, dice[i], now);
      GrowStep(level, letters, tgt, form, dice, now, id0, rs, placed, r);
      rs', placed' := rs + [r], placed;
      if r.Some? {
        placed' := placed + [r.value];
        nextId := nextId + 1;
      }
    }

    /** `fillForestTree`: one more object on the tree unless it already holds fourteen. */
    method FillForestTree(d: Dice, now: int)
      requires Valid() && target.Some? && theme == Forest && DiceOk(d)
      modifies this`bag, this`cycle, this`nextId, this`objects
      ensures Valid() && Filled(d, now)
    {
      if |objects| >= MaxForestObjects {
        return;
      }
      var r := CreateForestObject(target.value, targetForm, objects, d, now);
      if r.Some? {
        Append(r.value);
      }
    }

    /**
     * What one forest top-up does. A full tree is left as it is. Otherwise one placement
     * runs against the tree: when it finds no spot, tree and bag stay as they are; when it
     * creates an object, the tree gains it with the next id, and its decision was forced or
     * drawn from the bag.
     */
    twostate predicate Filled(d: Dice, now: int)
      requires target.Some? && DiceOk(d)
      reads this
    {
      if |old(objects)| >= MaxForestObjects then
        objects == old(objects) && bag == old(bag) && cycle == old(cycle) && nextId == old(nextId)
      else
        exists r :: Created(level, letters, target.value, targetForm, old(objects), d, now, r) &&
          (r.None? ==> objects == old(objects) && bag == old(bag) && cycle == old(cycle) && nextId == old(nextId)) &&
          (r.Some? ==>
            objects == old(objects) + [r.value] && r.value.id == old(nextId) && nextId == old(nextId) + 1 &&
            (ForcedTarget(old(objects), target.value.id) ==> bag == old(bag) && cycle == old(cycle)) &&
            (!ForcedTarget(old(objects), target.value.id) ==> Drew(old(bag), old(cycle), bag, cycle, r.value.isTarget)))
    }

    /** Some sea lane is free at time `now`. */
    ghost predicate SomeLaneFree(cooldown: map<int, int>, now: int) {
      exists l :: 1 <= l <= SeaLanes && LaneFree(cooldown, l, now)
    }

    /** Choose a free sea lane at random and start its cooldown; `None` when every lane is cooling down. */
    method TakeLane(pick: nat, now: int) returns (lane: Option<int>)
      modifies this`laneCooldown
      ensures lane.None? <==> !SomeLaneFree(old(laneCooldown), now)
      ensures lane.None? ==> laneCooldown == old(laneCooldown)
      ensures lane.Some? ==>
        1 <= lane.value <= SeaLanes && LaneFree(old(laneCooldown), lane.value, now) &&
        laneCooldown == old(laneCooldown)[lane.value := now + LaneCooldownMs]
    {
      var lanes := AvailableLanes(laneCooldown, now);
      if lanes == [] {
        return None;
      }
      var l := lanes[pick % |lanes|];
      assert l in lanes;
      laneCooldown := laneCooldown[l := now + LaneCooldownMs];
      lane := Some(l);
    }

    /**
     * `spawnObject` for the sea and sky themes. The bag slot is drawn before the lane
     * search, so a tick that finds no free lane still uses one up.
     */
    method SpawnObject(d: Dice, now: int)
      requires Valid() && target.Some? && theme != Forest && DiceOk(d)
      modifies this`bag, this`cycle, this`nextId, this`objects, this`laneCooldown
      ensures Valid()
      ensures paused || |old(objects)| >= MaxScreenObjects ==>
        objects == old(objects) && bag == old(bag) && cycle == old(cycle) &&
        laneCooldown == old(laneCooldown) && nextId == old(nextId)
      ensures !paused && |old(objects)| < MaxScreenObjects ==> Emitted(d, now)
    {
      if paused {
        return;
      }
      if |objects| >= MaxScreenObjects {
        return;
      }
      Emit(d, now);
    }

    /**
     * What one sea or sky spawn below the cap does: it draws a bag slot; the sea needs a
     * free lane, whose cooldown it starts; the new object carries the drawn decision.
     */
    twostate predicate Emitted(d: Dice, now: int)
      reads this
    {
      cycle != [] && Drew(old(bag), old(cycle), bag, cycle, cycle[|cycle| - 1]) && Entered(d, now, cycle[|cycle| - 1])
    }

    /**
     * The new object enters, unless it is bound for the sea and every lane is cooling down.
     * It is the object `Spawned` builds for the decision, the draws, the lane taken and the next id.
     */
    twostate predicate Entered(d: Dice, now: int, isTarget: bool)
      reads this
    {
      if theme == Sky || SomeLaneFree(old(laneCooldown), now) then
        Grown(old(objects), objects, old(nextId)) && nextId == old(nextId) + 1 &&
        target.Some? && DiceOk(d) && OtherLetters(letters, target.value.id) != [] &&
        var o := objects[|old(objects)|];
        (theme == Sky ==>
          laneCooldown == old(laneCooldown) &&
          o == Spawned(Sky, level, letters, target.value, targetForm, isTarget, 0, d, old(nextId), now)) &&
        (theme == Sea ==>
          o.lane.Some? && 1 <= o.lane.value <= SeaLanes && LaneFree(old(laneCooldown), o.lane.value, now) &&
          laneCooldown == old(laneCooldown)[o.lane.value := now + LaneCooldownMs] &&
          o == Spawned(Sea, level, letters, target.value, targetForm, isTarget, o.lane.value, d, old(nextId), now))
      else
        objects == old(objects) && nextId == old(nextId) && laneCooldown == old(laneCooldown)
    }

    method Emit(d: Dice, now: int)
      requires Valid() && target.Some? && theme != Forest && DiceOk(d) && |objects| < MaxScreenObjects
      modifies this`bag, this`cycle, this`nextId, this`objects, this`laneCooldown
      ensures Valid() && Emitted(d, now)
    {
      var isTarget := DrawSpawnType(d.shuffle);
      Enter(isTarget, d, now);
    }

    method Enter(isTarget: bool, d: Dice, now: int)
      requires Valid() && target.Some? && theme != Forest && DiceOk(d) && |objects| < MaxScreenObjects
      modifies this`nextId, this`objects, this`laneCooldown
      ensures Valid() && Entered(d, now, isTarget)
    {
      var lane := 0;
      if theme == Sea {
        var free := TakeLane(d.lanePick, now);
        if free.None? {
          return;
        }
        lane := free.value;
      }
      Append(Spawned(theme, level, letters, target.value, targetForm, isTarget, lane, d, nextId, now));
    }

    /** Add an object at the end of the live collection, one that keeps the collection's invariant. */
    method Append(o: Entity)
      requires Valid() && target.Some? && |objects| < Cap(theme) && o.id == nextId
      requires Placed(theme, o) && Honest(level, target.value, targetForm, o)
      requires theme == Forest ==> Separated(objects, Pos(o))
      modifies this`objects, this`nextId
      ensures Valid() && objects == old(objects) + [o] && nextId == old(nextId) + 1
    {
      AppendKeepsOk(objects, o, theme, level, target.value, targetForm, nextId);
      objects := objects + [o];
      nextId := nextId + 1;
    }

    /** The spawn interval: it runs only while armed, and tops up the forest or spawns on screen. */
    method SpawnTick(d: Dice, now: int)
      requires Valid() && DiceOk(d)
      modifies this`bag, this`cycle, this`nextId, this`objects, this`laneCooldown
      ensures Valid()
      ensures !old(Running()) ==> unchanged(this)
      ensures objects == old(objects) || Grown(old(objects), objects, old(nextId))
      ensures old(Running()) && theme == Forest ==> Filled(d, now)
      ensures old(Running()) && theme != Forest && |old(objects)| >= MaxScreenObjects ==>
        objects == old(objects) && bag == old(bag) && cycle == old(cycle) &&
        laneCooldown == old(laneCooldown) && nextId == old(nextId)
      ensures old(Running()) && theme != Forest && |old(objects)| < MaxScreenObjects ==> Emitted(d, now)
    {
      if report.Some? || paused || target.None? {
        return;
      }
      if theme == Forest {
        FillForestTree(d, now);
      } else {
        SpawnObject(d, now);
      }
    }

    /**
     * `startNewWave`: pick the target letter and its form, restart the countdown, count
     * the wave, and rebuild the forest or clear the screen.
     */
    method StartNewWave(isFirst: bool, letterPick: nat, formPick: nat, dice: seq<Dice>, now: int)
      requires Valid() && report.None? && WaveDiceOk(dice)
      modifies this`target, this`targetForm, this`objects, this`bag, this`cycle, this`nextId
      modifies this`timeLeft, this`wave
      ensures Valid()
      ensures target == Some(letters[letterPick % |letters|])
      ensures targetForm == RandomForm(level, target.value, formPick)
      ensures timeLeft == WaveDuration && wave == (if isFirst then 1 else old(wave) + 1)
      ensures Boarded(dice, now)
    {
      timeLeft := WaveDuration;
      wave := if isFirst then 1 else wave + 1;
      var next := letters[letterPick % |letters|];
      NewBoard(next, RandomForm(level, next, formPick), dice, now);
    }

    /** The new target and the objects that go with it: a rebuilt forest, or an empty screen. */
    method NewBoard(next: Letter, form: string, dice: seq<Dice>, now: int)
      requires Valid() && next in letters && WaveDiceOk(dice)
      requires level == 1 ==> form == next.isolated
      requires level == 2 ==> form in PositionalForms(next)
      modifies this`target, this`targetForm, this`objects, this`bag, this`cycle, this`nextId
      ensures Valid() && target == Some(next) && targetForm == form
      ensures Boarded(dice, now)
    {
      if theme == Forest {
        NewForest(next, form, dice, now);
      } else {
        target, targetForm, objects := Some(next), form, [];
      }
    }

    /** A new forest target: the tree is rebuilt around it. */
    method NewForest(next: Letter, form: string, dice: seq<Dice>, now: int)
      requires Valid() && theme == Forest && next in letters && WaveDiceOk(dice)
      requires level == 1 ==> form == next.isolated
      requires level == 2 ==> form in PositionalForms(next)
      modifies this`target, this`targetForm, this`objects, this`bag, this`cycle, this`nextId
      ensures Valid() && target == Some(next) && targetForm == form
      ensures Reshuffled(level, letters, next, form, dice, now, old(nextId), objects, nextId)
    {
      ReshuffleForest(next, form, dice, now);
      target, targetForm := Some(next), form;
    }

    /** The board a wave starts with: an empty screen, or a forest rebuilt for the new target. */
    twostate predicate Boarded(dice: seq<Dice>, now: int)
      requires WaveDiceOk(dice) && target.Some?
      reads this
    {
      (theme != Forest ==> objects == [] && bag == old(bag) && cycle == old(cycle) && nextId == old(nextId)) &&
      (theme == Forest ==> Reshuffled(level, letters, target.value, targetForm, dice, now, old(nextId), objects, nextId))
    }

    /** The countdown interval: a tick at one second or less starts a new wave, otherwise it counts down. */
    method CountdownTick(letterPick: nat, formPick: nat, dice: seq<Dice>, now: int)
      requires Valid() && WaveDiceOk(dice)
      modifies this`target, this`targetForm, this`objects, this`bag, this`cycle, this`nextId
      modifies this`timeLeft, this`wave
      ensures Valid()
      ensures !old(Running()) ==> unchanged(this)
      ensures old(Running()) && old(timeLeft) > 1 ==>
        timeLeft == old(timeLeft) - 1 && wave == old(wave) && target == old(target) &&
        targetForm == old(targetForm) && objects == old(objects) && bag == old(bag) &&
        cycle == old(cycle) && nextId == old(nextId)
      ensures old(Running()) && old(timeLeft) <= 1 ==>
        timeLeft == WaveDuration && wave == old(wave) + 1 &&
        target == Some(letters[letterPick % |letters|]) &&
        targetForm == RandomForm(level, target.value, formPick) && Boarded(dice, now)
    {
      if report.Some? || paused || target.None? {
        return;
      }
      if timeLeft <= 1 {
        StartNewWave(false, letterPick, formPick, dice, now);
        timeLeft := WaveDuration;
      } else {
        timeLeft := timeLeft - 1;
      }
    }

    /** `handleCorrect`: add the reward and take the object off the screen. */
    method HandleCorrect(id: nat, isBonus: bool, spawnTime: Option<int>, now: int)
      requires Valid()
      modifies this`score, this`objects, this`idleDeadline
      ensures Valid()
      ensures score == old(score) + Reward(isBonus, spawnTime, now)
      ensures objects == RemoveId(old(objects), id)
      ensures idleDeadline == now + IdleTimeoutMs
    {
      idleDeadline := now + IdleTimeoutMs;
      score := score + Reward(isBonus, spawnTime, now);
      if target.Some? {
        RemoveKeepsOk(objects, id, theme, level, target.value, targetForm, nextId);
      }
      objects := RemoveId(objects, id);
    }

    /**
     * `handleWrong`: five points off (not below zero), one life off, the target letter
     * recorded as a mistake; at no lives left the run ends, reporting the score as it
     * was before the deduction and zero lives.
     */
    method HandleWrong(now: int)
      requires Valid() && report.None?
      modifies this`score, this`lives, this`mistakes, this`report, this`idleDeadline
      ensures Valid()
      ensures score == ScoreAfterWrong(old(score)) && lives == old(lives) - 1
      ensures mistakes == if target.Some? then AddMistake(old(mistakes), target.value.id) else old(mistakes)
      ensures report.Some? <==> lives <= 0
      ensures report.Some? ==> report.value == FinalStats(old(score), 0, wave, mistakes, level)
      ensures idleDeadline == now + IdleTimeoutMs
    {
      var before := score;
      var recorded := if target.Some? then AddMistake(mistakes, target.value.id) else mistakes;
      score, lives, mistakes, idleDeadline := ScoreAfterWrong(score), lives - 1, recorded, now + IdleTimeoutMs;
      if lives <= 0 {
        report := Some(FinalStats(before, 0, wave, mistakes, level));
      }
    }

    /** What a click or drop that reaches a verdict does to the run. */
    twostate predicate Resolved(id: nat, now: int)
      requires old(Valid()) && old(Resolvable(id))
      reads this
    {
      var k := old(Find(objects, id)).value;
      var o := old(objects)[k];
      var goal := old(target).value;
      idleDeadline == now + IdleTimeoutMs &&
      (IsCorrect(level, o, goal, old(targetForm)) ==>
        score == old(score) + Reward(o.isBonus, o.spawnTime, now) &&
        objects == old(objects)[..k] + old(objects)[k + 1..] &&
        lives == old(lives) && mistakes == old(mistakes) && report == old(report)) &&
      (!IsCorrect(level, o, goal, old(targetForm)) ==>
        score == ScoreAfterWrong(old(score)) && lives == old(lives) - 1 &&
        objects == old(objects) && mistakes == AddMistake(old(mistakes), goal.id) &&
        (report.Some? <==> lives <= 0) &&
        (report.Some? ==> report.value == FinalStats(old(score), 0, wave, mistakes, level)))
    }

    /** The verdict shared by click and drop: correct by the level's rule, or wrong. */
    method Resolve(id: nat, now: int)
      requires Valid() && Resolvable(id)
      modifies this`score, this`lives, this`mistakes, this`report, this`idleDeadline, this`objects
      ensures Valid()
      ensures Resolved(id, now)
    {
      var k := Find(objects, id).value;
      var o := objects[k];
      if IsCorrect(level, o, target.value, targetForm) {
        RemoveExactlyOne(objects, k);
        HandleCorrect(id, o.isBonus, o.spawnTime, now);
      } else {
        HandleWrong(now);
      }
    }

    /** `handleObjectClick`: ignored while paused, before the first target, or for an object already gone. */
    method Click(id: nat, now: int)
      requires Valid()
      modifies this`score, this`lives, this`mistakes, this`report, this`idleDeadline, this`objects
      ensures Valid()
      ensures !old(Resolvable(id)) ==> unchanged(this)
      ensures old(Resolvable(id)) ==> Resolved(id, now)
    {
      if report.Some? || paused || target.None? {
        return;
      }
      if Find(objects, id).None? {
        return;
      }
      Resolve(id, now);
    }

    /**
     * `handleObjectDrop`: as a click, but only for a release inside the drop zone widened
     * by 30 on every side; `zone` is `None` when the basket is not on screen.
     */
    method Drop(id: nat, x: real, y: real, zone: Option<Rect>, now: int)
      requires Valid()
      modifies this`score, this`lives, this`mistakes, this`report, this`idleDeadline, this`objects
      ensures Valid()
      ensures !(old(Resolvable(id)) && zone.Some? && InsideDropZone(x, y, zone.value)) ==> unchanged(this)
      ensures old(Resolvable(id)) && zone.Some? && InsideDropZone(x, y, zone.value) ==> Resolved(id, now)
    {
      if report.Some? || paused || zone.None? || target.None? {
        return;
      }
      if !InsideDropZone(x, y, zone.value) {
        return;
      }
      if Find(objects, id).None? {
        return;
      }
      Resolve(id, now);
    }

    /** `handleAnimationEnd`: a sea or sky object that has finished its course leaves the screen. */
    method AnimationEnd(id: nat)
      requires Valid()
      modifies this`objects
      ensures Valid()
      ensures theme == Forest ==> objects == old(objects)
      ensures theme != Forest ==> objects == RemoveId(old(objects), id)
      ensures theme != Forest && old(Find(objects, id)).Some? ==>
        var k := old(Find(objects, id)).value;
        objects == old(objects)[..k] + old(objects)[k + 1..]
    {
      if theme != Forest {
        if target.Some? {
          RemoveKeepsOk(objects, id, theme, level, target.value, targetForm, nextId);
        }
        var k := Find(objects, id);
        if k.Some? {
          RemoveExactlyOne(objects, k.value);
        }
        objects := RemoveId(objects, id);
      }
    }

    /** The pause button; a change of the pause flag re-arms the idle timer. */
    method TogglePause(now: int)
      requires Valid()
      modifies this`paused, this`idleDeadline
      ensures Valid()
      ensures old(report).Some? ==> unchanged(this)
      ensures old(report).None? ==> paused == !old(paused) && idleDeadline == now + IdleTimeoutMs
    {
      if report.Some? {
        return;
      }
      paused := !paused;
      idleDeadline := now + IdleTimeoutMs;
    }

    /** The page became hidden: pause, re-arming the idle timer if the flag changes. */
    method Hide(now: int)
      requires Valid()
      modifies this`paused, this`idleDeadline
      ensures Valid()
      ensures old(report).Some? || old(paused) ==> unchanged(this)
      ensures old(report).None? && !old(paused) ==> paused && idleDeadline == now + IdleTimeoutMs
    {
      if report.Some? || paused {
        return;
      }
      paused := true;
      idleDeadline := now + IdleTimeoutMs;
    }

    /** A mouse press or touch anywhere: re-arms the idle timer unless paused. */
    method Activity(now: int)
      requires Valid()
      modifies this`idleDeadline
      ensures Valid()
      ensures old(report).None? && !paused ==> idleDeadline == now + IdleTimeoutMs
      ensures old(report).Some? || paused ==> idleDeadline == old(idleDeadline)
    {
      if report.None? && !paused {
        idleDeadline := now + IdleTimeoutMs;
      }
    }

    /** The idle timer: once its deadline has passed the run ends with the current score and zero lives. */
    method IdleTimeout(now: int)
      requires Valid()
      modifies this`report
      ensures Valid()
      ensures old(report).None? && now >= idleDeadline ==>
        report == Some(FinalStats(score, 0, wave, mistakes, level))
      ensures old(report).Some? || now < idleDeadline ==> report == old(report)
    {
      if report.None? && now >= idleDeadline {
        report := Some(FinalStats(score, 0, wave, mistakes, level));
      }
    }

  }
}
