/**
 * The records of `types.ts`: letters of the dataset, the objects on screen and the
 * statistics handed to the game-over screen.
 */
module Types {

  datatype Option<+T> = None | Some(value: T)

  /** `GameLevel`: 1 shows isolated letterforms, 2 shows positional letterforms. */
  type GameLevel = l: int | l == 1 || l == 2 witness 1

  /** The three themes the engine runs; `random` is resolved to one of them before a run starts. */
  datatype Theme = Sea | Forest | Sky

  /** `LetterData`: a letter's identity and its four display forms. */
  datatype Letter = Letter(
    id: string,
    isolated: string,
    initial: string,
    medial: string,
    final: string,
    audioUrl: string)

  /** The four forms of a letter, in the order the engine lists them. */
  function Forms(l: Letter): (forms: seq<string>)
    ensures |forms| == 4
    ensures forms[0] == l.isolated && forms[1] == l.initial
    ensures forms[2] == l.medial && forms[3] == l.final
  {
    [l.isolated, l.initial, l.medial, l.final]
  }

  /** The three positional forms level 2 chooses from. */
  function PositionalForms(l: Letter): (forms: seq<string>)
    ensures |forms| == 3
    ensures forall f :: f in forms ==> f in Forms(l)
  {
    [l.initial, l.medial, l.final]
  }

  /**
   * `GameObjectEntity`. `letter` is the string shown, `originalLetterId` the letter it was
   * drawn from; the two are separate because a positional form is not the letter's id.
   * Forest objects carry `startY`; sea and sky objects carry a `lane` (0 for sky).
   */
  datatype Entity = Entity(
    id: nat,
    letter: string,
    originalLetterId: string,
    isTarget: bool,
    isBonus: bool,
    startX: real,
    startY: Option<real>,
    duration: real,
    delay: real,
    lane: Option<int>,
    spawnTime: Option<int>)

  /** `GameStats`, produced once when a run ends. */
  datatype GameStats = GameStats(
    score: int,
    lives: int,
    wave: int,
    mistakes: seq<string>,
    level: GameLevel,
    stars: int)

  /** A screen rectangle, the drop zone's bounding box. */
  datatype Rect = Rect(left: real, right: real, top: real, bottom: real)

  /** A point in percent of the play area. */
  datatype Point = Point(x: real, y: real)
}
