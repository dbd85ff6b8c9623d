/** The popup's game-state hook (src/hooks/useGameState.ts): the one-second
    tick, the four player actions with their gates, renaming, and the mood
    derived from the stats. Every updater the hook hands to `setState` is a
    function from the previous record to the next; the class `GameHook` at
    the end holds the record the way the hook's `useState` does. */
module UseGameState {
  import opened GameTypes

  const FoodConsumeInterval: int := 5        // ticks between meals
  const TirednessThreshold: int := 80        // play at or above this sends the cat to sleep
  const BathCooldown: int := 10 * 60 * 1000  // milliseconds between ordinary baths
  const BathEmergencyThreshold: int := 25    // below this a bath is always allowed
  const PlayHungerIncrease: int := 5
  const PlayCleanlinessDecrease: int := 5
  const PlayTirednessIncrease: int := 5
  const SleepTirednessDecrease: int := 2     // per tick while asleep

  /** Whether tick number `count` is a meal tick. The source tests
      `count % 5 === 0` with a remainder that truncates toward zero; Dafny's
      `%` is Euclidean, and the two agree on whether the remainder is zero
      for every integer, negative or not. */
  predicate IsMealTick(count: int)
  {
    count % FoodConsumeInterval == 0
  }

  /** The interval updater: one second of game time. A sleeping cat sheds
      two points of tiredness and wakes once none is left; an awake cat eats
      one unit of food on every fifth tick, or gets hungrier if there is
      none. The tick counter advances either way. */
  function Tick(s: GameState): (r: GameState)
    ensures r.totalPlayTime == s.totalPlayTime + 1
    ensures r.isSleeping ==> s.isSleeping
    ensures s.isSleeping ==>
      && r.tiredness == Max(0, s.tiredness - SleepTirednessDecrease)
      && (r.isSleeping <==> r.tiredness > 0)
      && r.sleepStartTime == (if r.isSleeping then s.sleepStartTime else None)
      && r.hunger == s.hunger && r.catFood == s.catFood
    ensures !s.isSleeping ==>
      && !r.isSleeping && r.tiredness == s.tiredness && r.sleepStartTime == s.sleepStartTime
      && (IsMealTick(s.totalPlayTime + 1) && s.catFood > 0 ==>
            r.catFood == s.catFood - 1 && r.hunger == Max(0, s.hunger - 1))
      && (IsMealTick(s.totalPlayTime + 1) && s.catFood <= 0 ==>
            r.catFood == s.catFood && r.hunger == Min(MaxStat, s.hunger + 1))
      && (!IsMealTick(s.totalPlayTime + 1) ==> r.catFood == s.catFood && r.hunger == s.hunger)
    // nothing but these six fields ever changes
    ensures r == s.(hunger := r.hunger, tiredness := r.tiredness, catFood := r.catFood,
                    isSleeping := r.isSleeping, sleepStartTime := r.sleepStartTime,
                    totalPlayTime := r.totalPlayTime)
    ensures Bounded(s) ==> Bounded(r)
    ensures Valid(s) ==> Valid(r)
  {
    var tickCount := s.totalPlayTime + 1;
    var next :=
      if s.isSleeping then
        var tiredness := Max(0, s.tiredness - SleepTirednessDecrease);
        if tiredness <= 0 then s.(isSleeping := false, sleepStartTime := None, tiredness := 0)
        else s.(tiredness := tiredness)
      else if IsMealTick(tickCount) then
        if s.catFood > 0 then s.(catFood := Max(0, s.catFood - 1), hunger := Max(0, s.hunger - 1))
        else s.(hunger := Min(MaxStat, s.hunger + 1))
      else s;
    next.(totalPlayTime := tickCount)
  }

  /** addFood: refill the food bowl to 100; refused while the cat sleeps.
      Feeding refills the supply only: hunger falls later, as the food is
      eaten. */
  function AddFood(s: GameState, now: int): (r: GameState)
    ensures s.isSleeping ==> r == s
    ensures !s.isSleeping ==> r.catFood == 100 && r.lastFeedTime == now
    ensures r.hunger == s.hunger
    ensures r == s.(catFood := r.catFood, lastFeedTime := r.lastFeedTime)
    ensures Valid(s) ==> Valid(r)
  {
    if s.isSleeping then s
    else s.(catFood := 100, lastFeedTime := now)
  }

  /** play: hunger and tiredness up by 5, cleanliness down by 5, each kept
      inside 0..100; the cat falls asleep, from `now`, once tiredness reaches
      80. Refused while the cat sleeps. */
  function Play(s: GameState, now: int): (r: GameState)
    ensures s.isSleeping ==> r == s
    ensures !s.isSleeping ==>
      && r.hunger == Min(MaxStat, s.hunger + PlayHungerIncrease)
      && r.cleanliness == Max(0, s.cleanliness - PlayCleanlinessDecrease)
      && r.tiredness == Min(MaxStat, s.tiredness + PlayTirednessIncrease)
      && (r.isSleeping <==> r.tiredness >= TirednessThreshold)
      && r.sleepStartTime == (if r.isSleeping then Some(now) else None)
    ensures !r.isSleeping ==> r.tiredness < TirednessThreshold
    ensures r == s.(hunger := r.hunger, cleanliness := r.cleanliness, tiredness := r.tiredness,
                    isSleeping := r.isSleeping, sleepStartTime := r.sleepStartTime)
    ensures Valid(s) ==> Valid(r)
  {
    if s.isSleeping then s
    else
      var hunger := Min(MaxStat, s.hunger + PlayHungerIncrease);
      var cleanliness := Max(0, s.cleanliness - PlayCleanlinessDecrease);
      var tiredness := Min(MaxStat, s.tiredness + PlayTirednessIncrease);
      var isSleeping := tiredness >= TirednessThreshold;
      s.(hunger := hunger, cleanliness := cleanliness, tiredness := tiredness,
         isSleeping := isSleeping, sleepStartTime := if isSleeping then Some(now) else None)
  }

  /** canBath: a dirty cat (cleanliness below 25) may always be bathed,
      otherwise ten minutes must have passed since the last bath. */
  function CanBath(s: GameState, now: int): (ok: bool)
    ensures s.cleanliness < BathEmergencyThreshold ==> ok
    ensures s.cleanliness >= BathEmergencyThreshold ==> (ok <==> now - s.lastBathTime >= BathCooldown)
  {
    if s.cleanliness < BathEmergencyThreshold then true
    else now - s.lastBathTime >= BathCooldown
  }

  /** bath: cleanliness back to 100, stamped `now`; refused while the cat
      sleeps and while the cooldown runs, unless the cat is very dirty. The
      gate is the sleep test followed by exactly the test of `CanBath`. */
  function Bath(s: GameState, now: int): (r: GameState)
    ensures !s.isSleeping && CanBath(s, now) ==> r.cleanliness == 100 && r.lastBathTime == now
    ensures s.isSleeping || !CanBath(s, now) ==> r == s
    ensures r == s.(cleanliness := r.cleanliness, lastBathTime := r.lastBathTime)
    ensures Valid(s) ==> Valid(r)
  {
    if s.isSleeping then s
    else
      var timeSinceLastBath := now - s.lastBathTime;
      var canBathNow := s.cleanliness < BathEmergencyThreshold || timeSinceLastBath >= BathCooldown;
      if !canBathNow then s
      else s.(cleanliness := 100, lastBathTime := now)
  }

  /** resetGame: the default record stamped `now`, keeping only the
      picture and the name. It runs whether or not the cat sleeps, and the
      clock reading `loadTime` that INITIAL_GAME_STATE was built with leaves
      no trace. */
  function ResetGame(s: GameState, now: int, loadTime: int): (r: GameState)
    ensures r == InitialGameState(now).(catImageUrl := s.catImageUrl, catName := s.catName)
    ensures !r.isSleeping && r.sleepStartTime == None
    ensures r.createdAt == r.lastBathTime == r.lastFeedTime == now
    ensures s.catName != [] ==> Valid(r)
  {
    InitialGameState(loadTime).(
      createdAt := now,
      lastBathTime := now,
      lastFeedTime := now,
      catImageUrl := s.catImageUrl,
      catName := s.catName)
  }

  /** setCatName: an empty name falls back to the default label. */
  function SetCatName(s: GameState, name: string): (r: GameState)
    ensures r.catName != []
    ensures name != [] ==> r.catName == name
    ensures name == [] ==> r.catName == DefaultName
    ensures r == s.(catName := r.catName)
    ensures Valid(s) ==> Valid(r)
  {
    s.(catName := if name == [] then DefaultName else name)
  }

  /** determineMood: the first of sleeping, hungry (hunger 70 or more),
      tired (tiredness 80 or more), needs-a-bath (cleanliness under 30) that
      applies, happy when none does. */
  function DetermineMood(s: GameState): (m: Mood)
    ensures m == Sleeping <==> s.isSleeping
    ensures m == Hungry <==> !s.isSleeping && s.hunger >= 70
    ensures m == Tired <==> !s.isSleeping && s.hunger < 70 && s.tiredness >= 80
    ensures m == Clean <==> !s.isSleeping && s.hunger < 70 && s.tiredness < 80 && s.cleanliness < 30
    ensures m == Happy <==> !s.isSleeping && s.hunger < 70 && s.tiredness < 80 && s.cleanliness >= 30
  {
    if s.isSleeping then Sleeping
    else if s.hunger >= 70 then Hungry
    else if s.tiredness >= 80 then Tired
    else if s.cleanliness < 30 then Clean
    else Happy
  }

  /** The face shown for each mood (getMoodEmoji's table). */
  function MoodEmoji(m: Mood): string
  {
    match m
    case Happy => "\U{1F638}"
    case Hungry => "\U{1F63E}"
    case Tired => "\U{1F63B}"
    case Sleeping => "\U{1F634}"
    case Clean => "\U{2728}"
  }

  /** Different moods show different faces, so the face tells the mood. */
  lemma MoodEmojiInjective(m1: Mood, m2: Mood)
    ensures MoodEmoji(m1) == MoodEmoji(m2) ==> m1 == m2
  {
  }

  /** The stored default mood is the one derived from the default stats. */
  lemma InitialMoodIsDerived(loadTime: int)
    ensures DetermineMood(InitialGameState(loadTime)) == InitialGameState(loadTime).mood == Happy
  {
  }

  /** The record the hook hands to the popup: the stored one with its mood
      derived afresh from the stats. */
  function Shown(s: GameState): (v: GameState)
    ensures v.mood == DetermineMood(s)
    ensures v == s.(mood := v.mood)
  {
    s.(mood := DetermineMood(s))
  }

  /** The hook's state cell. Each method replaces the record the way the
      hook's callbacks do through `setState`, and keeps a valid record
      valid. */
  class GameHook {
    var state: GameState
    /** The clock reading captured when INITIAL_GAME_STATE was built. */
    const loadTime: int

    constructor (loadTime: int)
      ensures state == InitialGameState(loadTime) && this.loadTime == loadTime
      ensures Valid(state)
    {
      this.loadTime := loadTime;
      state := InitialGameState(loadTime);
    }

    /** The one-second interval. */
    method OnTimer()
      modifies this
      ensures state == Tick(old(state))
      ensures state.totalPlayTime == old(state.totalPlayTime) + 1
      ensures old(Valid(state)) ==> Valid(state)
    {
      state := Tick(state);
    }

    method AddFoodClick(now: int)
      modifies this
      ensures state == AddFood(old(state), now)
      ensures old(state.isSleeping) ==> state == old(state)
      ensures old(Valid(state)) ==> Valid(state)
    {
      state := AddFood(state, now);
    }

    method PlayClick(now: int)
      modifies this
      ensures state == Play(old(state), now)
      ensures old(state.isSleeping) ==> state == old(state)
      ensures old(Valid(state)) ==> Valid(state)
    {
      state := Play(state, now);
    }

    method BathClick(now: int)
      modifies this
      ensures state == Bath(old(state), now)
      ensures old(state.isSleeping) || !CanBath(old(state), now) ==> state == old(state)
      ensures old(Valid(state)) ==> Valid(state)
    {
      state := Bath(state, now);
    }

    method ResetClick(now: int)
      modifies this
      ensures state == ResetGame(old(state), now, loadTime)
      ensures state.catName == old(state.catName) && state.catImageUrl == old(state.catImageUrl)
      ensures old(Valid(state)) ==> Valid(state)
    {
      state := ResetGame(state, now, loadTime);
    }

    method Rename(name: string)
      modifies this
      ensures state == SetCatName(old(state), name)
      ensures old(Valid(state)) ==> Valid(state)
    {
      state := SetCatName(state, name);
    }

    /** canBath, read against the current record. */
    method CanBathNow(now: int) returns (ok: bool)
      ensures ok == CanBath(state, now)
    {
      ok := CanBath(state, now);
    }

    /** getMoodEmoji, read against the current record. */
    method MoodEmojiNow() returns (face: string)
      ensures face == MoodEmoji(DetermineMood(state))
      ensures state.isSleeping ==> face == MoodEmoji(Sleeping)
    {
      face := MoodEmoji(DetermineMood(state));
    }
  }
}
