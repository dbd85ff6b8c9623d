/** The persisted pet record, its mood enumeration and the default record
    (src/types/game.ts). */
module GameTypes {

  datatype Option<T> = None | Some(value: T)

  /** CatMood: the five moods a cat can show. `Clean` is the "needs a bath"
      alert, named after the source's own label. */
  datatype Mood = Happy | Hungry | Tired | Sleeping | Clean

  /** Every mood there is. */
  function AllMoods(): set<Mood>
  {
    {Happy, Hungry, Tired, Sleeping, Clean}
  }

  /** CatMood has exactly five values. */
  lemma MoodsAreFive()
    ensures forall m: Mood :: m in AllMoods()
    ensures |AllMoods()| == 5
  {
    forall m: Mood ensures m in AllMoods() {
      match m
      case Happy => case Hungry => case Tired => case Sleeping => case Clean =>
    }
    assert AllMoods() == {Happy} + {Hungry} + {Tired} + {Sleeping} + {Clean};
  }

  /** GameState. Stats are whole numbers: every change the game makes to
      them is by an integer amount. Timestamps are epoch milliseconds. */
  datatype GameState = GameState(
    hunger: int,                  // 0..100
    tiredness: int,               // 0..100
    cleanliness: int,             // 0..100
    catFood: int,                 // food units left
    mood: Mood,                   // stored mood (the popup derives the shown one)
    lastBathTime: int,
    lastFeedTime: int,
    sleepStartTime: Option<int>,  // null while awake
    isSleeping: bool,
    totalPlayTime: int,           // ticks (seconds) played
    createdAt: int,
    catImageUrl: Option<string>,  // opaque picture reference
    catName: string
  )

  /** The label a cat carries until the player names it: "你的猫咪". */
  const DefaultName: string := "\U{4F60}\U{7684}\U{732B}\U{54AA}"

  const MaxStat: int := 100

  // Math.max and Math.min on whole numbers.
  function Max(a: int, b: int): int { if a >= b then a else b }
  function Min(a: int, b: int): int { if a <= b then a else b }

  /** Hunger, tiredness and cleanliness lie in 0..100, the food supply is
      never negative. */
  predicate Bounded(s: GameState)
  {
    && 0 <= s.hunger <= MaxStat
    && 0 <= s.tiredness <= MaxStat
    && 0 <= s.cleanliness <= MaxStat
    && 0 <= s.catFood
  }

  /** The sleep flag and the sleep start time move together; a sleeping cat
      still has some tiredness left to sleep off, an awake cat is below the
      threshold that sends it to sleep. */
  predicate SleepConsistent(s: GameState)
  {
    && (s.isSleeping <==> s.sleepStartTime.Some?)
    && (s.isSleeping ==> 0 < s.tiredness)
    && (!s.isSleeping ==> s.tiredness < 80)
  }

  /** The invariant every state the game can reach satisfies. */
  predicate Valid(s: GameState)
  {
    && Bounded(s)
    && SleepConsistent(s)
    && 0 <= s.totalPlayTime
    && s.catName != []
  }

  /** INITIAL_GAME_STATE; `loadTime` is the clock reading taken when the
      module is loaded, used for all three of its timestamps. */
  function InitialGameState(loadTime: int): (s: GameState)
    ensures Valid(s)
    ensures s.hunger == 0 && s.tiredness == 0 && s.cleanliness == 100 && s.catFood == 0
    ensures !s.isSleeping && s.sleepStartTime == None
    ensures s.totalPlayTime == 0 && s.catImageUrl == None && s.catName == DefaultName
    ensures s.mood == Happy
    ensures s.lastBathTime == s.lastFeedTime == s.createdAt == loadTime
  {
    GameState(
      hunger := 0,
      tiredness := 0,
      cleanliness := 100,
      catFood := 0,
      mood := Happy,
      lastBathTime := loadTime,
      lastFeedTime := loadTime,
      sleepStartTime := None,
      isSleeping := false,
      totalPlayTime := 0,
      createdAt := loadTime,
      catImageUrl := None,
      catName := DefaultName
    )
  }
}
