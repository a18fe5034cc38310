/**
 * What the two spawners share: which letter and form a new object shows, the bonus
 * flag, the sea lanes and their cooldowns, and where each theme puts its objects.
 */
module Spawn {
  import opened Types
  import opened Rules
  import opened Bag

  /** A number drawn by `Math.random()`. */
  predicate Unit(r: real) {
    0.0 <= r < 1.0
  }

  /**
   * Every random draw one spawn may use. Whole-number picks are reduced modulo the size
   * of the list they index, since a uniform draw scaled to a list always lands inside it.
   * `shuffle` feeds a bag refill, `samples` the forest's placement attempts.
   */
  datatype Dice = Dice(
    shuffle: seq<nat>,
    tricky: real,
    wrongPick: nat,
    letterPick: nat,
    formPick: nat,
    lanePick: nat,
    x: real,
    duration: real,
    bonus: real,
    samples: seq<Point>)

  const PlacementAttempts: nat := 50

  predicate DiceOk(d: Dice) {
    |d.shuffle| == ShuffleDraws && Unit(d.tricky) && Unit(d.x) && Unit(d.duration) && Unit(d.bonus) &&
    |d.samples| == PlacementAttempts &&
    forall k :: 0 <= k < |d.samples| ==> Unit(d.samples[k].x) && Unit(d.samples[k].y)
  }

  /** `getRandomForm`: the isolated form at level 1, one of the three positional forms at level 2. */
  function RandomForm(level: GameLevel, l: Letter, pick: nat): (form: string)
    ensures level == 1 ==> form == l.isolated
    ensures level == 2 ==> form in PositionalForms(l)
    ensures form in Forms(l)
  {
    if level == 1 then l.isolated else PositionalForms(l)[pick % 3]
  }

  /** Every positional form is one draw away at level 2. */
  lemma RandomFormCoversPositional(l: Letter, f: string)
    requires f in PositionalForms(l)
    ensures exists pick: nat :: pick < 3 && RandomForm(2, l, pick) == f
  {
    var forms := PositionalForms(l);
    if f == forms[0] { assert RandomForm(2, l, 0) == f; }
    else if f == forms[1] { assert RandomForm(2, l, 1) == f; }
    else { assert RandomForm(2, l, 2) == f; }
  }

  /** The letter's forms other than the target form, in their original order. */
  function WrongForms(forms: seq<string>, targetForm: string): (wrong: seq<string>)
    ensures forall f :: f in wrong ==> f in forms && f != targetForm
    ensures |wrong| <= |forms|
  {
    if forms == [] then []
    else (if forms[0] != targetForm then [forms[0]] else []) + WrongForms(forms[1..], targetForm)
  }

  /** The filter drops nothing but the target form. */
  lemma {:induction false} WrongFormsComplete(forms: seq<string>, targetForm: string, f: string)
    requires f in forms && f != targetForm
    ensures f in WrongForms(forms, targetForm)
  {
    if forms[0] != f {
      WrongFormsComplete(forms[1..], targetForm, f);
    }
  }

  /**
   * The letters the distractor loop can settle on: it redraws while the letter has the
   * target's id, so it ends on one of these.
   */
  function OtherLetters(letters: seq<Letter>, id: string): (others: seq<Letter>)
    ensures forall l :: l in others ==> l in letters && l.id != id
    ensures |others| <= |letters|
  {
    if letters == [] then []
    else (if letters[0].id != id then [letters[0]] else []) + OtherLetters(letters[1..], id)
  }

  /** Every letter with another id stays a candidate. */
  lemma {:induction false} OtherLettersComplete(letters: seq<Letter>, id: string, l: Letter)
    requires l in letters && l.id != id
    ensures l in OtherLetters(letters, id)
  {
    if letters[0] != l {
      OtherLettersComplete(letters[1..], id, l);
    }
  }

  /** A distractor is "tricky" (same letter, other form) only at level 2, on a draw below 0.5. */
  predicate UseTricky(level: GameLevel, roll: real) {
    level == 2 && roll < 0.5
  }

  /** The letter a new object is drawn from and the string it shows. */
  datatype Look = Look(source: Letter, display: string)

  /** The branch at components/GameEngine.tsx:240-263 (forest) and :310-333 (sea and sky). */
  function Dress(level: GameLevel, letters: seq<Letter>, target: Letter, targetForm: string,
                 isTarget: bool, d: Dice): (look: Look)
    requires OtherLetters(letters, target.id) != []
    ensures isTarget ==> look == Look(target, targetForm)
    ensures !isTarget && UseTricky(level, d.tricky) ==>
      look.source == target && look.display in Forms(target) &&
      (WrongForms(Forms(target), targetForm) != [] ==> look.display != targetForm)
    ensures !isTarget && !UseTricky(level, d.tricky) ==>
      look.source in letters && look.source.id != target.id &&
      look.display == RandomForm(level, look.source, d.formPick)
  {
    if isTarget then Look(target, targetForm)
    else if UseTricky(level, d.tricky) then
      var wrong := WrongForms(Forms(target), targetForm);
      if |wrong| > 0 then Look(target, wrong[d.wrongPick % |wrong|])
      else Look(target, RandomForm(level, target, d.formPick))
    else
      var others := OtherLetters(letters, target.id);
      var l := others[d.letterPick % |others|];
      Look(l, RandomForm(level, l, d.formPick))
  }

  /**
   * When all four forms of the target equal the target form, a tricky distractor has no
   * other form to show and falls back to the target form itself: a non-target object
   * that level 2 then counts as correct.
   */
  lemma TrickyFallbackShowsTarget(level: GameLevel, letters: seq<Letter>, target: Letter,
                                  targetForm: string, d: Dice)
    requires OtherLetters(letters, target.id) != []
    requires UseTricky(level, d.tricky) && WrongForms(Forms(target), targetForm) == []
    ensures Dress(level, letters, target, targetForm, false, d).display == targetForm
  {
    var shown := Dress(level, letters, target, targetForm, false, d).display;
    if shown != targetForm {
      WrongFormsComplete(Forms(target), targetForm, shown);
    }
  }

  /** The bonus flag: only a target spawn can be a bonus, on a draw below 0.15. */
  function BonusFlag(isTarget: bool, roll: real): (bonus: bool)
    ensures bonus ==> isTarget
    ensures isTarget ==> (bonus <==> roll < 0.15)
  {
    isTarget && roll < 0.15
  }

  /**
   * The contents every live object keeps relative to the current target: a target shows
   * the target form and carries the target id; only targets are bonuses; an object with
   * the target's id that is not a target is a level-2 tricky distractor, shown in one of
   * the target's forms other than the target form whenever such a form exists.
   */
  predicate Honest(level: GameLevel, target: Letter, targetForm: string, o: Entity) {
    (o.isBonus ==> o.isTarget) &&
    (o.isTarget ==> o.letter == targetForm && o.originalLetterId == target.id) &&
    (!o.isTarget && o.originalLetterId == target.id ==>
      level == 2 && o.letter in Forms(target) &&
      (WrongForms(Forms(target), targetForm) != [] ==> o.letter != targetForm))
  }

  /** At level 1 the stored flag of an honest object agrees with the verdict on catching it. */
  lemma FlagAgreesAtLevelOne(target: Letter, targetForm: string, o: Entity)
    requires Honest(1, target, targetForm, o)
    ensures IsCorrect(1, o, target, targetForm) <==> o.isTarget
  {
  }

  /** At level 2 a target is correct; a tricky distractor is not, unless no other form exists. */
  lemma FlagAndVerdictAtLevelTwo(target: Letter, targetForm: string, o: Entity)
    requires Honest(2, target, targetForm, o)
    ensures o.isTarget ==> IsCorrect(2, o, target, targetForm)
    ensures (!o.isTarget && o.originalLetterId == target.id && WrongForms(Forms(target), targetForm) != [])
            ==> !IsCorrect(2, o, target, targetForm)
  {
  }

  /** An object built from a look, so that it is honest whatever the dice showed. */
  lemma DressedIsHonest(level: GameLevel, letters: seq<Letter>, target: Letter, targetForm: string,
                        isTarget: bool, d: Dice, o: Entity)
    requires OtherLetters(letters, target.id) != []
    requires o.letter == Dress(level, letters, target, targetForm, isTarget, d).display
    requires o.originalLetterId == Dress(level, letters, target, targetForm, isTarget, d).source.id
    requires o.isTarget == isTarget && o.isBonus == BonusFlag(isTarget, d.bonus)
    ensures Honest(level, target, targetForm, o)
  {
  }

  // Sea lanes

  /** A lane is free when its cooldown is unset, zero, or already passed at `now`. */
  predicate LaneFree(cooldown: map<int, int>, lane: int, now: int) {
    lane !in cooldown || cooldown[lane] == 0 || now > cooldown[lane]
  }

  /** The loop over lanes 1..6 collecting the free ones, in increasing order. */
  method AvailableLanes(cooldown: map<int, int>, now: int) returns (lanes: seq<int>)
    ensures forall l :: l in lanes <==> 1 <= l <= SeaLanes && LaneFree(cooldown, l, now)
    ensures forall i, j :: 0 <= i < j < |lanes| ==> lanes[i] < lanes[j]
    ensures |lanes| <= SeaLanes
  {
    lanes := [];
    for i := 1 to SeaLanes + 1
      invariant forall l :: l in lanes <==> 1 <= l < i && LaneFree(cooldown, l, now)
      invariant forall p, q :: 0 <= p < q < |lanes| ==> lanes[p] < lanes[q]
      invariant forall p :: 0 <= p < |lanes| ==> 1 <= lanes[p] < i
      invariant |lanes| <= i - 1
    {
      if LaneFree(cooldown, i, now) {
        lanes := lanes + [i];
      }
    }
  }

  // Geometry of each theme

  /** Where a theme's objects start and how long they live, in percent and seconds; none is delayed. */
  predicate Placed(theme: Theme, o: Entity) {
    o.delay == 0.0 &&
    match theme
    case Forest =>
      o.startY.Some? && 12.0 <= o.startX < 88.0 && 15.0 <= o.startY.value < 65.0 &&
      o.lane.None? && o.duration == 0.0
    case Sea =>
      o.startX == 100.0 && o.lane.Some? && 1 <= o.lane.value <= SeaLanes &&
      9.0 <= o.duration < 14.0 && o.startY.None?
    case Sky =>
      10.0 <= o.startX < 80.0 && o.lane == Some(0) && 8.0 <= o.duration < 13.0 && o.startY.None?
  }

  /** Every theme keeps `startX` in the 0..100 percentage range. */
  lemma PlacedInPercentRange(theme: Theme, o: Entity)
    requires Placed(theme, o)
    ensures 0.0 <= o.startX <= 100.0
  {
  }

  /** A sea object: it enters from the right edge in the given lane. */
  function SeaEntity(id: nat, look: Look, isTarget: bool, lane: int, d: Dice, now: int): (o: Entity)
    requires Unit(d.duration) && 1 <= lane <= SeaLanes
    ensures Placed(Sea, o) && o.id == id && o.lane == Some(lane) && o.spawnTime == Some(now)
    ensures o.letter == look.display && o.originalLetterId == look.source.id
    ensures o.isTarget == isTarget && o.isBonus == BonusFlag(isTarget, d.bonus)
  {
    Entity(id, look.display, look.source.id, isTarget, BonusFlag(isTarget, d.bonus), 100.0, None,
           d.duration * 5.0 + 9.0, 0.0, Some(lane), Some(now))
  }

  /** A sky object: it rises from a random point between 10% and 80% of the width. */
  function SkyEntity(id: nat, look: Look, isTarget: bool, d: Dice, now: int): (o: Entity)
    requires Unit(d.x) && Unit(d.duration)
    ensures Placed(Sky, o) && o.id == id && o.spawnTime == Some(now)
    ensures o.letter == look.display && o.originalLetterId == look.source.id
    ensures o.isTarget == isTarget && o.isBonus == BonusFlag(isTarget, d.bonus)
  {
    Entity(id, look.display, look.source.id, isTarget, BonusFlag(isTarget, d.bonus),
           d.x * 70.0 + 10.0, None, d.duration * 5.0 + 8.0, 0.0, Some(0), Some(now))
  }
}
