/** What the popup hook's updaters do over many ticks and actions: the
    sleep/wake cycle, the meal schedule, and the invariant every reachable
    record keeps (src/hooks/useGameState.ts). */
module Simulation {
  import opened GameTypes
  import opened UseGameState

  /** `n` consecutive ticks. */
  function TickN(s: GameState, n: nat): GameState
  {
    if n == 0 then s else Tick(TickN(s, n - 1))
  }

  /** While a sleeping cat still has tiredness left after `k` ticks, it has
      shed exactly two points per tick and nothing but its tiredness and
      the counter has moved. */
  lemma {:induction false} SleepProgress(s: GameState, k: nat)
    requires s.isSleeping
    requires 2 * k < s.tiredness
    ensures TickN(s, k).isSleeping
    ensures TickN(s, k).tiredness == s.tiredness - 2 * k
    ensures TickN(s, k).sleepStartTime == s.sleepStartTime
    ensures TickN(s, k).hunger == s.hunger && TickN(s, k).catFood == s.catFood
    ensures TickN(s, k).totalPlayTime == s.totalPlayTime + k
  {
    if k > 0 {
      SleepProgress(s, k - 1);
    }
  }

  /** Number of ticks a cat with tiredness `t` sleeps: t/2 rounded up. */
  function SleepTicks(t: int): int
  {
    (t + 1) / 2
  }

  /** A sleeping cat wakes after exactly SleepTicks(tiredness) ticks, with
      tiredness 0 and no sleep start time, and not a tick earlier. */
  lemma {:induction false} WakesAfterSleepTicks(s: GameState)
    requires s.isSleeping && 0 < s.tiredness
    ensures forall k: nat :: k < SleepTicks(s.tiredness) ==> TickN(s, k).isSleeping
    ensures !TickN(s, SleepTicks(s.tiredness)).isSleeping
    ensures TickN(s, SleepTicks(s.tiredness)).tiredness == 0
    ensures TickN(s, SleepTicks(s.tiredness)).sleepStartTime == None
    ensures TickN(s, SleepTicks(s.tiredness)).totalPlayTime == s.totalPlayTime + SleepTicks(s.tiredness)
  {
    forall k: nat | k < SleepTicks(s.tiredness)
      ensures TickN(s, k).isSleeping
    {
      SleepProgress(s, k);
    }
    SleepProgress(s, SleepTicks(s.tiredness) - 1);
  }

  /** An awake cat stays awake under ticks and its tiredness stays put: only
      play (or reset) changes it. */
  lemma {:induction false} AwakeTicksKeepTiredness(s: GameState, n: nat)
    requires !s.isSleeping
    ensures !TickN(s, n).isSleeping
    ensures TickN(s, n).tiredness == s.tiredness
    ensures TickN(s, n).cleanliness == s.cleanliness
    ensures TickN(s, n).sleepStartTime == s.sleepStartTime
    ensures TickN(s, n).totalPlayTime == s.totalPlayTime + n
  {
    if n > 0 {
      AwakeTicksKeepTiredness(s, n - 1);
    }
  }

  /** How many of the tick numbers p+1 .. p+n are meal ticks. */
  function Meals(p: int, n: nat): int
  {
    (p + n) / FoodConsumeInterval - p / FoodConsumeInterval
  }

  lemma MealsStep(p: int, n: nat)
    requires n > 0
    ensures Meals(p, n) == Meals(p, n - 1) + (if IsMealTick(p + n) then 1 else 0)
    ensures 0 <= Meals(p, n - 1) <= Meals(p, n)
  {
  }

  /** Over `n` awake ticks the cat eats one unit at each meal tick while
      there is food, and gets one point hungrier at each meal tick after the
      food has run out: hunger first falls by the units eaten, then rises by
      the meals missed. */
  lemma {:induction false} FoodAfterTicks(s: GameState, n: nat)
    requires !s.isSleeping && Bounded(s)
    ensures TickN(s, n).catFood == Max(0, s.catFood - Meals(s.totalPlayTime, n))
    ensures s.catFood >= Meals(s.totalPlayTime, n) ==>
              TickN(s, n).hunger == Max(0, s.hunger - Meals(s.totalPlayTime, n))
    ensures s.catFood == 0 ==>
              TickN(s, n).hunger == Min(MaxStat, s.hunger + Meals(s.totalPlayTime, n))
    ensures var eaten := Min(s.catFood, Meals(s.totalPlayTime, n));
            TickN(s, n).hunger == Min(MaxStat, Max(0, s.hunger - eaten) + (Meals(s.totalPlayTime, n) - eaten))
  {
    if n > 0 {
      var p := s.totalPlayTime;
      FoodAfterTicks(s, n - 1);
      AwakeTicksKeepTiredness(s, n - 1);
      MealsStep(p, n);
      var before := TickN(s, n - 1);
      assert TickN(s, n) == Tick(before);
      assert before.totalPlayTime + 1 == p + n;
    }
  }

  /** Any five consecutive awake ticks hold exactly one meal. */
  lemma FiveTicksOneMeal(s: GameState)
    requires !s.isSleeping && Bounded(s)
    ensures s.catFood > 0 ==>
      TickN(s, 5).catFood == s.catFood - 1 && TickN(s, 5).hunger == Max(0, s.hunger - 1)
    ensures s.catFood == 0 ==>
      TickN(s, 5).catFood == 0 && TickN(s, 5).hunger == Min(MaxStat, s.hunger + 1)
  {
    FoodAfterTicks(s, 5);
    assert Meals(s.totalPlayTime, 5) == 1;
  }

  /** The tick is not idempotent: applying it again always moves the
      counter again. */
  lemma TickNeverIdempotent(s: GameState)
    ensures Tick(Tick(s)) != Tick(s)
    ensures Tick(Tick(s)).totalPlayTime == s.totalPlayTime + 2
  {
  }

  /** The sleep cycle: play that takes tiredness to 80 or more puts the
      cat to sleep from `now`; it then wakes, rested, after the number of
      ticks it takes to shed its tiredness two points at a time. */
  lemma PlayThenSleepCycle(s: GameState, now: int)
    requires Valid(s) && !s.isSleeping
    requires s.tiredness + PlayTirednessIncrease >= TirednessThreshold
    ensures Play(s, now).isSleeping && Play(s, now).sleepStartTime == Some(now)
    ensures Play(s, now).tiredness == s.tiredness + PlayTirednessIncrease
    ensures !TickN(Play(s, now), SleepTicks(s.tiredness + PlayTirednessIncrease)).isSleeping
    ensures TickN(Play(s, now), SleepTicks(s.tiredness + PlayTirednessIncrease)).tiredness == 0
  {
    WakesAfterSleepTicks(Play(s, now));
  }

  /** A player or timer event arriving at the popup hook. */
  datatype Event =
    | TimerTick
    | FeedClick(now: int)
    | BathClick(now: int)
    | PlayClick(now: int)
    | ResetClick(now: int)
    | Rename(name: string)

  function Apply(s: GameState, e: Event, loadTime: int): GameState
  {
    match e
    case TimerTick => Tick(s)
    case FeedClick(now) => AddFood(s, now)
    case BathClick(now) => Bath(s, now)
    case PlayClick(now) => Play(s, now)
    case ResetClick(now) => ResetGame(s, now, loadTime)
    case Rename(name) => SetCatName(s, name)
  }

  function Run(s: GameState, events: seq<Event>, loadTime: int): GameState
    decreases |events|
  {
    if events == [] then s else Run(Apply(s, events[0], loadTime), events[1..], loadTime)
  }

  /** The sleep state machine: only play sends an awake cat to sleep (and
      only once tiredness reaches 80); only a tick that leaves no tiredness,
      or a reset, wakes a sleeping one. */
  lemma SleepTransitions(s: GameState, e: Event, loadTime: int)
    ensures !s.isSleeping && Apply(s, e, loadTime).isSleeping ==>
      e.PlayClick? && Apply(s, e, loadTime).tiredness >= TirednessThreshold
      && Apply(s, e, loadTime).sleepStartTime == Some(e.now)
    ensures s.isSleeping && !Apply(s, e, loadTime).isSleeping ==>
      (e.TimerTick? && Apply(s, e, loadTime).tiredness == 0) || e.ResetClick?
  {
  }

  /** While the cat sleeps, every action but reset and rename is refused
      and changes nothing. */
  lemma RefusedWhileAsleep(s: GameState, now: int)
    requires s.isSleeping
    ensures AddFood(s, now) == s && Play(s, now) == s && Bath(s, now) == s
  {
  }

  /** Every sequence of events keeps the record valid: stats in 0..100,
      food never negative, the sleep flag in step with the sleep start
      time, a non-empty name. */
  lemma {:induction false} RunPreservesValid(s: GameState, events: seq<Event>, loadTime: int)
    requires Valid(s)
    ensures Valid(Run(s, events, loadTime))
    ensures Run(s, events, loadTime).totalPlayTime >= 0
    decreases |events|
  {
    if events != [] {
      RunPreservesValid(Apply(s, events[0], loadTime), events[1..], loadTime);
    }
  }

  /** The tired mood is never shown: a valid awake cat is below the
      tiredness that play sends to sleep, which is the tiredness the mood
      chain tests for tired. */
  lemma ValidNeverTired(s: GameState)
    requires Valid(s)
    ensures DetermineMood(s) != Tired
    ensures MoodEmoji(DetermineMood(s)) != MoodEmoji(Tired)
  {
    MoodEmojiInjective(DetermineMood(s), Tired);
  }

  /** Every record the hook can reach from its initial state is valid. */
  lemma ReachableIsValid(events: seq<Event>, loadTime: int)
    ensures Valid(Run(InitialGameState(loadTime), events, loadTime))
  {
    RunPreservesValid(InitialGameState(loadTime), events, loadTime);
  }

  /** No record reachable from the initial state shows the tired mood or
      its face. */
  lemma TiredMoodUnreachable(events: seq<Event>, loadTime: int)
    ensures DetermineMood(Run(InitialGameState(loadTime), events, loadTime)) != Tired
    ensures MoodEmoji(DetermineMood(Run(InitialGameState(loadTime), events, loadTime))) != MoodEmoji(Tired)
  {
    ReachableIsValid(events, loadTime);
    ValidNeverTired(Run(InitialGameState(loadTime), events, loadTime));
  }
}
