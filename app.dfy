/**
 * The pet-care game of src/App.jsx. The component keeps the adopted pet's
 * record, the two needs (hunger and happiness, 0..100), the sleeping flag, the
 * catch-game flag and the three fields of its own adoption form; event handlers
 * and two timer callbacks update them.
 *
 * The first half states every transition as a pure function on a `State`
 * value and proves what holds along any sequence of events; the class `App` at
 * the end holds the same state in mutable fields, and each of its methods is
 * proved to perform exactly the corresponding transition.
 *
 * Events come from the screen the component renders: the adoption form while
 * no pet exists, the game screen afterwards. An event whose button is not on
 * screen cannot happen; `Step` leaves the state unchanged for it. The decay
 * interval and the end-of-game timeout are timer callbacks, not buttons, and
 * can fire on either screen.
 */
module PixelPetApp {
  import opened Wrappers
  import PixelPet
  import AdoptionCenter

  /** The upper bound of both needs, and their value on every load. */
  const MaxStat: int := 100
  /** What one decay tick (every 3 s) takes from each need. */
  const DecayStep: int := 2
  /** What one Feed or Play adds to its need. */
  const CareStep: int := 15
  /** The coins one click on the pet earns while the catch game runs. */
  const CatchReward: int := 5
  /** The pet kinds the adoption form's type buttons offer. */
  const PetTypes: seq<string> := ["cat", "dino", "slime"]
  /** The colour input's initial value. */
  const DefaultColor: string := "#f472b6"

  /** The saved pet record: what `petData` holds once a pet is adopted. */
  datatype Pet = Pet(name: string, kind: string, color: string, coins: int, accessories: seq<string>)

  /** The adoption form's fields: `formName`, `formType`, `formColor`. */
  datatype AdoptionForm = AdoptionForm(name: string, kind: string, color: string)

  datatype State = State(
    petData: Option<Pet>,
    hunger: int,
    happiness: int,
    isSleeping: bool,
    gameMode: bool,
    form: AdoptionForm)

  datatype Event =
    | DecayTick               // the 3-second interval fires
    | Feed | Play             // game screen buttons
    | ToggleSleep             // "Sleep" / "Wake Up"
    | StartGame               // "Catch the Pet! (Game)"
    | EndGame                 // the 8-second timeout that the game button scheduled fires
    | ClickPet                // a click on the pet
    | TypeName(name: string)  // adoption form: name input
    | PickType(kind: string)  // adoption form: a type button
    | PickColor(color: string) // adoption form: colour input
    | Adopt                   // adoption form: submit

  // ---------------------------------------------------------------------------
  // Invariants and observations
  // ---------------------------------------------------------------------------

  predicate InRange(s: State) {
    0 <= s.hunger <= MaxStat && 0 <= s.happiness <= MaxStat
  }

  /** Both needs stay in range, and the catch game only runs once a pet exists. */
  predicate Wf(s: State) {
    InRange(s) && (s.gameMode ==> s.petData.Some?)
  }

  /** The coin balance shown; no pet means no coins. */
  function Coins(s: State): int {
    if s.petData.Some? then s.petData.value.coins else 0
  }

  /** Everything but the two needs is the same in `s` and `t`. */
  predicate SameButNeeds(s: State, t: State) {
    t.petData == s.petData && t.isSleeping == s.isSleeping && t.gameMode == s.gameMode && t.form == s.form
  }

  /** If `s` has a pet, `t` has one too, with the same name, kind and colour. */
  predicate KeepsProfile(s: State, t: State) {
    s.petData.Some? ==>
      && t.petData.Some?
      && t.petData.value.name == s.petData.value.name
      && t.petData.value.kind == s.petData.value.kind
      && t.petData.value.color == s.petData.value.color
  }

  /** The state on every load: the saved pet if any, full needs, awake, no game, an empty form. */
  function Initial(saved: Option<Pet>): (s: State)
    ensures Wf(s) && s.petData == saved && s.hunger == MaxStat && s.happiness == MaxStat
    ensures !s.isSleeping && !s.gameMode && s.form.name == "" && s.form.kind == PetTypes[0]
    ensures s.form.color == DefaultColor
  {
    State(saved, MaxStat, MaxStat, false, false, AdoptionForm("", "cat", DefaultColor))
  }

  /** Whether the button or timer behind `e` exists in state `s`. */
  predicate OnScreen(s: State, e: Event) {
    match e
    case DecayTick => true
    case EndGame => true
    case Feed => s.petData.Some?
    case Play => s.petData.Some?
    case ToggleSleep => s.petData.Some?
    case StartGame => s.petData.Some?
    case ClickPet => s.petData.Some?
    case TypeName(_) => s.petData.None?
    case PickType(kind) => s.petData.None? && kind in PetTypes
    case PickColor(_) => s.petData.None?
    case Adopt => s.petData.None?
  }

  // ---------------------------------------------------------------------------
  // The two clamped updates of a need
  // ---------------------------------------------------------------------------

  /** `Math.max(0, v - 2)`: down by exactly two, or to zero when that would go below. */
  function Drained(v: int): (r: int)
    ensures r >= 0
    ensures v >= DecayStep ==> r == v - DecayStep
    ensures v < DecayStep ==> r == 0
  {
    if v - DecayStep > 0 then v - DecayStep else 0
  }

  /** `Math.min(100, v + 15)`: up by exactly fifteen, or to 100 when that would go above. */
  function Boosted(v: int): (r: int)
    ensures r <= MaxStat
    ensures v + CareStep <= MaxStat ==> r == v + CareStep
    ensures v + CareStep > MaxStat ==> r == MaxStat
  {
    if v + CareStep < MaxStat then v + CareStep else MaxStat
  }

  // ---------------------------------------------------------------------------
  // Transitions
  // ---------------------------------------------------------------------------

  /**
   * The decay interval: while awake and adopted each need loses 2, floored at 0;
   * asleep or before adoption nothing changes. Nothing but the needs ever changes.
   */
  function Decayed(s: State): (t: State)
    ensures SameButNeeds(s, t)
    ensures s.isSleeping || s.petData.None? ==> t == s
    ensures !s.isSleeping && s.petData.Some? ==>
      && (s.hunger >= DecayStep ==> t.hunger == s.hunger - DecayStep)
      && (s.happiness >= DecayStep ==> t.happiness == s.happiness - DecayStep)
      && (s.hunger < DecayStep ==> t.hunger == 0)
      && (s.happiness < DecayStep ==> t.happiness == 0)
    ensures InRange(s) ==> InRange(t)
  {
    if !s.isSleeping && s.petData.Some? then
      s.(hunger := Drained(s.hunger), happiness := Drained(s.happiness))
    else s
  }

  /** Feed: hunger rises to min(100, hunger + 15); nothing else changes, asleep or not. */
  function Fed(s: State): (t: State)
    ensures t == s.(hunger := t.hunger)
    ensures s.hunger + CareStep <= MaxStat ==> t.hunger == s.hunger + CareStep
    ensures s.hunger + CareStep > MaxStat ==> t.hunger == MaxStat
    ensures s.hunger == MaxStat ==> t == s
    ensures InRange(s) ==> InRange(t)
  {
    s.(hunger := Boosted(s.hunger))
  }

  /** Play: happiness rises to min(100, happiness + 15); nothing else changes. */
  function Played(s: State): (t: State)
    ensures t == s.(happiness := t.happiness)
    ensures s.happiness + CareStep <= MaxStat ==> t.happiness == s.happiness + CareStep
    ensures s.happiness + CareStep > MaxStat ==> t.happiness == MaxStat
    ensures s.happiness == MaxStat ==> t == s
    ensures InRange(s) ==> InRange(t)
  {
    s.(happiness := Boosted(s.happiness))
  }

  /** Sleep / Wake Up: flips the sleeping flag and touches nothing else. */
  function SleepToggled(s: State): (t: State)
    ensures t.isSleeping != s.isSleeping
    ensures t == s.(isSleeping := t.isSleeping)
  {
    s.(isSleeping := !s.isSleeping)
  }

  /** A click on the pet: five coins while the game runs, otherwise nothing. */
  function PetClicked(s: State): (t: State)
    requires s.petData.Some?
    ensures s.gameMode ==> t == s.(petData := Some(s.petData.value.(coins := Coins(s) + CatchReward)))
    ensures !s.gameMode ==> t == s
    ensures Coins(t) >= Coins(s)
  {
    if s.gameMode then s.(petData := Some(s.petData.value.(coins := s.petData.value.coins + CatchReward)))
    else s
  }

  /**
   * `handleAdopt`: an empty form name is refused with no change; any other name,
   * even one made only of spaces, creates a pet from the form with no coins and
   * no accessories.
   */
  function Adopted(s: State): (t: State)
    ensures s.form.name == "" ==> t == s
    ensures s.form.name != "" ==>
      && t == s.(petData := t.petData)
      && t.petData == Some(Pet(s.form.name, s.form.kind, s.form.color, 0, []))
  {
    if s.form.name == "" then s
    else s.(petData := Some(Pet(s.form.name, s.form.kind, s.form.color, 0, [])))
  }

  /**
   * One event. The invariant `Wf` is kept, the coin balance never falls, and
   * once a pet exists it stays, with its name, kind and colour unchanged.
   */
  function Step(s: State, e: Event): (t: State)
    ensures Wf(s) ==> Wf(t)
    ensures Coins(t) >= Coins(s)
    ensures !OnScreen(s, e) ==> t == s
    ensures KeepsProfile(s, t)
  {
    if !OnScreen(s, e) then s
    else match e
      case DecayTick => Decayed(s)
      case Feed => Fed(s)
      case Play => Played(s)
      case ToggleSleep => SleepToggled(s)
      case StartGame => s.(gameMode := true)
      case EndGame => s.(gameMode := false)
      case ClickPet => PetClicked(s)
      case TypeName(name) => s.(form := s.form.(name := name))
      case PickType(kind) => s.(form := s.form.(kind := kind))
      case PickColor(color) => s.(form := s.form.(color := color))
      case Adopt => Adopted(s)
  }

  /** The state after a sequence of events, in order. */
  function Run(s: State, events: seq<Event>): State
    decreases |events|
  {
    if events == [] then s else Run(Step(s, events[0]), events[1..])
  }

  /** `n` copies of one event. */
  function Repeat(e: Event, n: nat): (events: seq<Event>)
    ensures |events| == n
  {
    if n == 0 then [] else [e] + Repeat(e, n - 1)
  }

  // ---------------------------------------------------------------------------
  // What holds along any run
  // ---------------------------------------------------------------------------

  lemma {:induction false} RunKeepsWf(s: State, events: seq<Event>)
    requires Wf(s)
    ensures Wf(Run(s, events))
    decreases |events|
  {
    if events != [] {
      RunKeepsWf(Step(s, events[0]), events[1..]);
    }
  }

  /** From any load, hunger and happiness stay within [0, 100] whatever happens. */
  lemma NeedsStayInRange(saved: Option<Pet>, events: seq<Event>)
    ensures var t := Run(Initial(saved), events);
      0 <= t.hunger <= MaxStat && 0 <= t.happiness <= MaxStat
  {
    RunKeepsWf(Initial(saved), events);
  }

  /** Coins never decrease, and an adopted pet is never lost nor renamed. */
  lemma {:induction false} RunKeepsCoinsAndPet(s: State, events: seq<Event>)
    ensures Coins(Run(s, events)) >= Coins(s)
    ensures KeepsProfile(s, Run(s, events))
    decreases |events|
  {
    if events != [] {
      RunKeepsCoinsAndPet(Step(s, events[0]), events[1..]);
    }
  }

  /** A pet adopted in this session never has a negative balance. */
  lemma FreshPetCoinsNonNegative(events: seq<Event>)
    ensures Coins(Run(Initial(None), events)) >= 0
  {
    RunKeepsCoinsAndPet(Initial(None), events);
  }

  /** `n` clicks during the game add exactly 5·n coins and change nothing else. */
  lemma {:induction false} ClicksInGame(s: State, n: nat)
    requires s.gameMode && s.petData.Some?
    ensures Run(s, Repeat(ClickPet, n))
         == s.(petData := Some(s.petData.value.(coins := Coins(s) + CatchReward * n)))
    decreases n
  {
    if n > 0 {
      var t := Step(s, ClickPet);
      assert Repeat(ClickPet, n)[1..] == Repeat(ClickPet, n - 1);
      ClicksInGame(t, n - 1);
    }
  }

  /** Clicks while no game runs change nothing. */
  lemma {:induction false} ClicksOutsideGame(s: State, n: nat)
    requires !s.gameMode
    ensures Run(s, Repeat(ClickPet, n)) == s
    decreases n
  {
    if n > 0 {
      assert Repeat(ClickPet, n)[1..] == Repeat(ClickPet, n - 1);
      ClicksOutsideGame(s, n - 1);
    }
  }

  /** A need after `n` decay ticks, awake: `max(0, v - 2n)`. */
  function DrainedBy(v: int, n: nat): int {
    if v - DecayStep * n > 0 then v - DecayStep * n else 0
  }

  /** `n` awake ticks take 2·n from each need, floored at 0, and change nothing else. */
  lemma {:induction false} TicksWhileAwake(s: State, n: nat)
    requires !s.isSleeping && s.petData.Some? && InRange(s)
    ensures var t := Run(s, Repeat(DecayTick, n));
      SameButNeeds(s, t) && t.hunger == DrainedBy(s.hunger, n) && t.happiness == DrainedBy(s.happiness, n)
    decreases n
  {
    if n > 0 {
      assert Repeat(DecayTick, n)[1..] == Repeat(DecayTick, n - 1);
      TicksWhileAwake(Step(s, DecayTick), n - 1);
    }
  }

  /** Left alone and awake, a freshly loaded pet is fully hungry and unhappy after 50 ticks. */
  lemma FiftyTicksEmptyTheNeeds(pet: Pet)
    ensures var t := Run(Initial(Some(pet)), Repeat(DecayTick, 50));
      t.hunger == 0 && t.happiness == 0
  {
    TicksWhileAwake(Initial(Some(pet)), 50);
  }

  /**
   * The game button is honoured whatever the state of the game screen, asleep or
   * with a game already running: after it, `n` clicks earn exactly 5·n coins and
   * the game is still on.
   */
  lemma GameButtonThenClicks(s: State, n: nat)
    requires s.petData.Some?
    ensures var t := Run(s, [StartGame] + Repeat(ClickPet, n));
      t.gameMode && Coins(t) == Coins(s) + CatchReward * n
  {
    assert ([StartGame] + Repeat(ClickPet, n))[1..] == Repeat(ClickPet, n);
    ClicksInGame(Step(s, StartGame), n);
  }

  /** Asleep, or before adoption, any number of ticks change nothing. */
  lemma {:induction false} TicksWhilePaused(s: State, n: nat)
    requires s.isSleeping || s.petData.None?
    ensures Run(s, Repeat(DecayTick, n)) == s
    decreases n
  {
    if n > 0 {
      assert Repeat(DecayTick, n)[1..] == Repeat(DecayTick, n - 1);
      TicksWhilePaused(s, n - 1);
    }
  }

  /** Sleeping twice in a row restores the state. */
  lemma ToggleSleepTwice(s: State)
    ensures Step(Step(s, ToggleSleep), ToggleSleep) == s
  {
  }

  // ---------------------------------------------------------------------------
  // The mood handed to the renderer
  // ---------------------------------------------------------------------------

  /** `(hunger + happiness) / 2`: floating-point division, exact for these integer sums, so the average. */
  function Mood(s: State): (m: real)
    ensures m * 2.0 == (s.hunger + s.happiness) as real
    ensures InRange(s) ==> 0.0 <= m <= MaxStat as real
  {
    (s.hunger + s.happiness) as real / 2.0
  }

  /**
   * The face the renderer draws for the mood it is given: it compares the mood
   * with the words 'sad' and 'happy', so a numeric mood always draws the
   * neutral face, whatever the needs are.
   */
  function ShownFace(s: State): (f: PixelPet.Face)
    ensures f == PixelPet.Neutral
  {
    PixelPet.FaceFor(PixelPet.Number(Mood(s)))
  }

  /**
   * The game's own form checks only for the empty string: a name of spaces is
   * adopted as it is, where the adoption center's form would refuse it.
   */
  lemma SpaceNameAdoptedHereRefusedThere()
    ensures var s := Initial(None).(form := AdoptionForm(" ", "cat", DefaultColor));
      Step(s, Adopt).petData == Some(Pet(" ", "cat", DefaultColor, 0, []))
    ensures !AdoptionCenter.CanStart(" ")
  {
    assert AdoptionCenter.IsTrimmable(" "[0]);
  }

  // ---------------------------------------------------------------------------
  // The component
  // ---------------------------------------------------------------------------

  /** The component's state, updated in place by its handlers and timers. */
  class App {
    var petData: Option<Pet>
    var hunger: int
    var happiness: int
    var isSleeping: bool
    var gameMode: bool
    var formName: string
    var formType: string
    var formColor: string

    /** The fields as a `State` value. */
    function Snapshot(): State
      reads this
    {
      State(petData, hunger, happiness, isSleeping, gameMode, AdoptionForm(formName, formType, formColor))
    }

    ghost predicate Valid()
      reads this
    {
      Wf(Snapshot())
    }

    /** A page load; `saved` is the stored pet record, if any. */
    constructor (saved: Option<Pet>)
      ensures Valid() && Snapshot() == Initial(saved)
    {
      petData := saved;
      hunger, happiness := MaxStat, MaxStat;
      isSleeping, gameMode := false, false;
      formName, formType, formColor := "", "cat", DefaultColor;
    }

    /** The decay interval's callback. */
    method DecayTick()
      requires Valid()
      modifies this
      ensures Valid() && Snapshot() == Step(old(Snapshot()), Event.DecayTick)
    {
      if !isSleeping && petData.Some? {
        hunger := if hunger - DecayStep > 0 then hunger - DecayStep else 0;
        happiness := if happiness - DecayStep > 0 then happiness - DecayStep else 0;
      }
    }

    method Feed()
      requires Valid() && petData.Some?
      modifies this
      ensures Valid() && Snapshot() == Step(old(Snapshot()), Event.Feed)
    {
      hunger := if hunger + CareStep < MaxStat then hunger + CareStep else MaxStat;
    }

    method Play()
      requires Valid() && petData.Some?
      modifies this
      ensures Valid() && Snapshot() == Step(old(Snapshot()), Event.Play)
    {
      happiness := if happiness + CareStep < MaxStat then happiness + CareStep else MaxStat;
    }

    method ToggleSleep()
      requires Valid() && petData.Some?
      modifies this
      ensures Valid() && Snapshot() == Step(old(Snapshot()), Event.ToggleSleep)
    {
      isSleeping := !isSleeping;
    }

    /** The game button: the game runs until `EndGame`, with no check of sleep or a running game. */
    method StartGame()
      requires Valid() && petData.Some?
      modifies this
      ensures Valid() && Snapshot() == Step(old(Snapshot()), Event.StartGame)
    {
      gameMode := true;
    }

    /** The timeout scheduled by the game button. */
    method EndGame()
      requires Valid()
      modifies this
      ensures Valid() && Snapshot() == Step(old(Snapshot()), Event.EndGame)
    {
      gameMode := false;
    }

    method ClickPet()
      requires Valid() && petData.Some?
      modifies this
      ensures Valid() && Snapshot() == Step(old(Snapshot()), Event.ClickPet)
    {
      if gameMode {
        petData := Some(petData.value.(coins := petData.value.coins + CatchReward));
      }
    }

    method TypeName(name: string)
      requires Valid() && petData.None?
      modifies this
      ensures Valid() && Snapshot() == Step(old(Snapshot()), Event.TypeName(name))
    {
      formName := name;
    }

    method PickType(kind: string)
      requires Valid() && petData.None? && kind in PetTypes
      modifies this
      ensures Valid() && Snapshot() == Step(old(Snapshot()), Event.PickType(kind))
    {
      formType := kind;
    }

    method PickColor(color: string)
      requires Valid() && petData.None?
      modifies this
      ensures Valid() && Snapshot() == Step(old(Snapshot()), Event.PickColor(color))
    {
      formColor := color;
    }

    /** `handleAdopt`. */
    method Adopt()
      requires Valid() && petData.None?
      modifies this
      ensures Valid() && Snapshot() == Step(old(Snapshot()), Event.Adopt)
    {
      if formName == "" {
        return;
      }
      petData := Some(Pet(formName, formType, formColor, 0, []));
    }
  }
}
