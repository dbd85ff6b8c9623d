/** The page content script (src/content.ts): its own copy of the game
    loop and of the action handlers, which load the stored record, edit the
    loaded object field by field and store it back; plus the mood badge,
    stat icons and name editing of its panel. Every handler is proved to
    store what the popup hook's updater computes. */
module ContentScript {
  import opened GameTypes
  import Hook = UseGameState
  import StatsDisplay

  // The content script's own copy of the game configuration.
  const FoodConsumeInterval: int := 5
  const BathCooldown: int := 10 * 60 * 1000
  const BathEmergencyThreshold: int := 25
  const SleepTirednessDecrease: int := 2

  /** getDefaultState. The script's record type lacks `mood`,
      `lastFeedTime` and `createdAt`, so the record it builds has no such
      fields; here they hold what a reader merging the record into
      INITIAL_GAME_STATE sees: the happy mood and that record's clock
      reading `initialTime`. */
  function DefaultState(now: int, initialTime: int): (s: GameState)
    ensures Valid(s)
    ensures s.hunger == 0 && s.tiredness == 0 && s.cleanliness == 100 && s.catFood == 0
    ensures !s.isSleeping && s.sleepStartTime == None && s.totalPlayTime == 0
    ensures s.catImageUrl == None && s.catName == DefaultName && s.lastBathTime == now
    ensures s == InitialGameState(initialTime).(lastBathTime := now)
  {
    GameState(
      hunger := 0,
      tiredness := 0,
      cleanliness := 100,
      catFood := 0,
      mood := Happy,
      lastBathTime := now,
      lastFeedTime := initialTime,
      sleepStartTime := None,
      isSleeping := false,
      totalPlayTime := 0,
      createdAt := initialTime,
      catImageUrl := None,
      catName := DefaultName
    )
  }

  /** `result.gameState || getDefaultState()`: a missing stored record is
      replaced by the default one before anything else happens. */
  function Load(stored: Option<GameState>, now: int, initialTime: int): (s: GameState)
    ensures stored.None? ==> s == DefaultState(now, initialTime) && Valid(s)
    ensures stored.Some? ==> s == stored.value
  {
    match stored
    case Some(record) => record
    case None => DefaultState(now, initialTime)
  }

  /** The plain object the script gets back from storage and edits in place. */
  class StateObject {
    var hunger: int
    var tiredness: int
    var cleanliness: int
    var catFood: int
    var mood: Mood
    var lastBathTime: int
    var lastFeedTime: int
    var sleepStartTime: Option<int>
    var isSleeping: bool
    var totalPlayTime: int
    var createdAt: int
    var catImageUrl: Option<string>
    var catName: string

    /** A fresh copy of `s` (`{ ...s }`, or the object storage hands back). */
    constructor Of(s: GameState)
      ensures Snapshot() == s
    {
      hunger, tiredness, cleanliness, catFood := s.hunger, s.tiredness, s.cleanliness, s.catFood;
      mood, lastBathTime, lastFeedTime := s.mood, s.lastBathTime, s.lastFeedTime;
      sleepStartTime, isSleeping, totalPlayTime := s.sleepStartTime, s.isSleeping, s.totalPlayTime;
      createdAt, catImageUrl, catName := s.createdAt, s.catImageUrl, s.catName;
    }

    /** The record the object serialises to. */
    function Snapshot(): GameState
      reads this
    {
      GameState(hunger, tiredness, cleanliness, catFood, mood, lastBathTime, lastFeedTime,
                sleepStartTime, isSleeping, totalPlayTime, createdAt, catImageUrl, catName)
    }
  }

  /** Why a click handler stored nothing (the toast it shows instead). */
  datatype Refusal = Asleep | BathCooldownActive

  /** What a click handler does to the stored record. */
  datatype Outcome = Written(state: GameState) | Refused(reason: Refusal)

  /** One run of the game loop's interval body: copy the loaded record,
      overwrite fields step by step, store the copy. It stores exactly the
      record the popup hook's tick computes, from the same record. */
  method GameLoopTick(stored: Option<GameState>, now: int, initialTime: int) returns (written: GameState)
    ensures written == Hook.Tick(Load(stored, now, initialTime))
    ensures written.totalPlayTime == Load(stored, now, initialTime).totalPlayTime + 1
    ensures Valid(Load(stored, now, initialTime)) ==> Valid(written)
  {
    var state := Load(stored, now, initialTime);
    var newState := new StateObject.Of(state);
    var tickCount := state.totalPlayTime + 1;

    if state.isSleeping {
      newState.tiredness := Max(0, state.tiredness - SleepTirednessDecrease);
      if newState.tiredness <= 0 {
        newState.isSleeping := false;
        newState.sleepStartTime := None;
        newState.tiredness := 0;
      }
    } else {
      if tickCount % FoodConsumeInterval == 0 {
        if state.catFood > 0 {
          newState.catFood := Max(0, state.catFood - 1);
          newState.hunger := Max(0, state.hunger - 1);
        } else {
          newState.hunger := Min(MaxStat, state.hunger + 1);
        }
      }
    }

    newState.totalPlayTime := tickCount;
    written := newState.Snapshot();
  }

  /** The feed button: refused while the cat sleeps, otherwise a full bowl
      stamped `now`; the same record the popup's addFood produces. */
  method FeedClick(stored: Option<GameState>, now: int, initialTime: int) returns (outcome: Outcome)
    ensures outcome.Refused? <==> Load(stored, now, initialTime).isSleeping
    ensures outcome.Refused? ==> outcome.reason == Asleep
    ensures outcome.Written? ==> outcome.state.catFood == 100 && outcome.state.lastFeedTime == now
    ensures outcome.Written? ==> outcome.state == Hook.AddFood(Load(stored, now, initialTime), now)
    ensures outcome.Written? && Valid(Load(stored, now, initialTime)) ==> Valid(outcome.state)
  {
    var state := new StateObject.Of(Load(stored, now, initialTime));
    if state.isSleeping {
      return Refused(Asleep);
    }
    state.catFood := 100;
    state.lastFeedTime := now;
    outcome := Written(state.Snapshot());
  }

  /** The bath button: refused while the cat sleeps, and while the ten
      minute cooldown runs unless cleanliness is below 25; otherwise
      cleanliness 100 stamped `now`, as the popup's bath produces. */
  method BathClick(stored: Option<GameState>, now: int, initialTime: int) returns (outcome: Outcome)
    ensures outcome == Refused(Asleep) <==> Load(stored, now, initialTime).isSleeping
    ensures outcome == Refused(BathCooldownActive) <==>
      && !Load(stored, now, initialTime).isSleeping
      && Load(stored, now, initialTime).cleanliness >= BathEmergencyThreshold
      && now - Load(stored, now, initialTime).lastBathTime < BathCooldown
    ensures outcome.Written? ==> outcome.state.cleanliness == 100 && outcome.state.lastBathTime == now
    ensures outcome.Written? ==> outcome.state == Hook.Bath(Load(stored, now, initialTime), now)
    ensures outcome.Written? && Valid(Load(stored, now, initialTime)) ==> Valid(outcome.state)
  {
    var state := new StateObject.Of(Load(stored, now, initialTime));
    if state.isSleeping {
      return Refused(Asleep);
    }
    var canBath := state.cleanliness < BathEmergencyThreshold || now - state.lastBathTime >= BathCooldown;
    if !canBath {
      return Refused(BathCooldownActive);
    }
    state.cleanliness := 100;
    state.lastBathTime := now;
    outcome := Written(state.Snapshot());
  }

  /** The play button. Its arithmetic and its sleep threshold are the
      popup's; unlike the popup it leaves the sleep start time alone when the
      cat stays awake, which changes nothing for a valid record (an awake
      cat has none). */
  method PlayClick(stored: Option<GameState>, now: int, initialTime: int) returns (outcome: Outcome)
    ensures outcome.Refused? <==> Load(stored, now, initialTime).isSleeping
    ensures outcome.Refused? ==> outcome.reason == Asleep
    ensures outcome.Written? ==>
      outcome.state == Hook.Play(Load(stored, now, initialTime), now).(
        sleepStartTime := if outcome.state.isSleeping then Some(now)
                          else Load(stored, now, initialTime).sleepStartTime)
    ensures outcome.Written? && Valid(Load(stored, now, initialTime)) ==>
      outcome.state == Hook.Play(Load(stored, now, initialTime), now)
    ensures outcome.Written? && Valid(Load(stored, now, initialTime)) ==> Valid(outcome.state)
  {
    var state := new StateObject.Of(Load(stored, now, initialTime));
    if state.isSleeping {
      return Refused(Asleep);
    }
    state.hunger := Min(MaxStat, state.hunger + 5);
    state.cleanliness := Max(0, state.cleanliness - 5);
    state.tiredness := Min(MaxStat, state.tiredness + 5);

    if state.tiredness >= 80 {
      state.isSleeping := true;
      state.sleepStartTime := Some(now);
    }
    outcome := Written(state.Snapshot());
  }

  /** The reset button: a fresh default record keeping the picture and the
      name, whatever the cat was doing. It matches the popup's resetGame in
      every field the script's record type has. */
  method ResetClick(stored: Option<GameState>, now: int, initialTime: int) returns (written: GameState)
    ensures written.hunger == 0 && written.tiredness == 0 && written.cleanliness == 100
    ensures written.catFood == 0 && !written.isSleeping && written.sleepStartTime == None
    ensures written.totalPlayTime == 0 && written.lastBathTime == now
    ensures written.catImageUrl == Load(stored, now, initialTime).catImageUrl
    ensures written.catName == Load(stored, now, initialTime).catName
    ensures written.(lastFeedTime := now, createdAt := now) ==
            Hook.ResetGame(Load(stored, now, initialTime), now, initialTime)
    ensures Load(stored, now, initialTime).catName != [] ==> Valid(written)
  {
    var oldState := Load(stored, now, initialTime);
    written := DefaultState(now, initialTime).(
      catImageUrl := oldState.catImageUrl,
      catName := oldState.catName);
  }

  /** Whitespace and line terminators as String.prototype.trim strips them. */
  predicate IsJsWhitespace(c: char)
  {
    || c in {'\t', '\n', '\U{000B}', '\U{000C}', '\r', ' ', '\U{00A0}', '\U{1680}',
             '\U{2028}', '\U{2029}', '\U{202F}', '\U{205F}', '\U{3000}', '\U{FEFF}'}
    || ('\U{2000}' <= c <= '\U{200A}')
  }

  /** How many whitespace characters `s` starts with. */
  function LeadingWhitespace(s: string): (n: nat)
    ensures n <= |s|
    ensures forall i :: 0 <= i < n ==> IsJsWhitespace(s[i])
    ensures n < |s| ==> !IsJsWhitespace(s[n])
    decreases |s|
  {
    if s == [] || !IsJsWhitespace(s[0]) then 0 else 1 + LeadingWhitespace(s[1..])
  }

  /** How many whitespace characters `s` ends with. */
  function TrailingWhitespace(s: string): (n: nat)
    ensures n <= |s|
    ensures forall i :: |s| - n <= i < |s| ==> IsJsWhitespace(s[i])
    ensures n < |s| ==> !IsJsWhitespace(s[|s| - 1 - n])
    decreases |s|
  {
    if s == [] || !IsJsWhitespace(s[|s| - 1]) then 0 else 1 + TrailingWhitespace(s[..|s| - 1])
  }

  /** String.prototype.trim: the piece of `s` left after dropping the
      whitespace at both ends; empty exactly when `s` is all whitespace,
      otherwise starting and ending with a non-whitespace character. */
  function Trim(s: string): (r: string)
    ensures r == [] <==> forall i :: 0 <= i < |s| ==> IsJsWhitespace(s[i])
    ensures r != [] ==> !IsJsWhitespace(r[0]) && !IsJsWhitespace(r[|r| - 1])
    ensures r != [] ==> r == s[LeadingWhitespace(s)..|s| - TrailingWhitespace(s)]
  {
    var lead := LeadingWhitespace(s);
    if lead == |s| then []
    else
      var trail := TrailingWhitespace(s);
      s[lead..|s| - trail]
  }

  /** Trimming twice is trimming once. */
  lemma TrimIdempotent(s: string)
    ensures Trim(Trim(s)) == Trim(s)
  {
  }

  /** The name editor's fallback: the trimmed input, or the default label
      when nothing but whitespace was typed. The stored name is never
      empty. */
  function NameFromInput(input: string): (name: string)
    ensures name != []
    ensures (forall i :: 0 <= i < |input| ==> IsJsWhitespace(input[i])) ==> name == DefaultName
    ensures !(forall i :: 0 <= i < |input| ==> IsJsWhitespace(input[i])) ==> name == Trim(input)
  {
    var trimmed := Trim(input);
    if trimmed == [] then DefaultName else trimmed
  }

  /** The name field losing focus: the loaded record with the new name
      written in, which is what the hook's setCatName gives for the trimmed
      input. (The popup's own editor differs on blank input: it keeps the
      old name and never calls setCatName.) */
  method NameBlur(stored: Option<GameState>, input: string, now: int, initialTime: int)
    returns (written: GameState)
    ensures written == Load(stored, now, initialTime).(catName := written.catName)
    ensures written.catName != []
    ensures written == Hook.SetCatName(Load(stored, now, initialTime), Trim(input))
    ensures Valid(Load(stored, now, initialTime)) ==> Valid(written)
  {
    var newName := NameFromInput(input);
    var state := new StateObject.Of(Load(stored, now, initialTime));
    state.catName := newName;
    written := state.Snapshot();
  }

  /** The panel's mood badge: the same face the popup shows for the mood
      it derives, for every record. */
  method MoodBadge(state: GameState) returns (mood: string)
    ensures mood == Hook.MoodEmoji(Hook.DetermineMood(state))
  {
    mood := "\U{1F638}";
    if state.isSleeping {
      mood := "\U{1F634}";
    } else if state.hunger >= 70 {
      mood := "\U{1F63E}";
    } else if state.tiredness >= 80 {
      mood := "\U{1F63B}";
    } else if state.cleanliness < 30 {
      mood := "\U{2728}";
    }
  }

  /** The panel's three stat icons: the popup's thresholds, for every
      record. */
  method PanelIcons(state: GameState) returns (hungerIcon: string, tirednessIcon: string, cleanlinessIcon: string)
    ensures hungerIcon == StatsDisplay.HungerIcon(state.hunger)
    ensures tirednessIcon == StatsDisplay.TirednessIcon(state.tiredness)
    ensures cleanlinessIcon == StatsDisplay.CleanlinessIcon(state.cleanliness)
  {
    hungerIcon := if state.hunger >= 70 then "\U{1F620}" else if state.hunger >= 40 then "\U{1F610}" else "\U{1F60A}";
    tirednessIcon := if state.tiredness >= 80 then "\U{1F634}" else if state.tiredness >= 50 then "\U{1F611}" else "\U{1F604}";
    cleanlinessIcon := if state.cleanliness <= 30 then "\U{1F922}" else if state.cleanliness <= 60 then "\U{1F615}" else "\U{2728}";
  }
}
