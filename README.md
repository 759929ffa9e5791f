# Pixel pet: the care loop and the adoption form, in Dafny

A model of the virtual-pet web app's logic. The player adopts a pet (name, kind, colour), then keeps two
needs, hunger and happiness, between 0 and 100. A timer drains both every few seconds unless the pet sleeps.
Feed and Play refill one need each. A short catch game pays five coins per click on the pet.

- `app.dfy`, module `PixelPetApp`: the game component of `src/App.jsx`. Every transition is a pure function
  on a `State` value (`Decayed`, `Fed`, `Played`, `SleepToggled`, `PetClicked`, `Adopted`), dispatched by
  `Step` and iterated by `Run`. Lemmas about `Run` state what holds along any sequence of events. The class
  `App` holds the same state in mutable fields. Each of its methods is proved to perform exactly
  `Step(old(Snapshot()), event)`, so every lemma about `Run` also holds of any sequence of method calls.
- `adoption_center.dfy`, module `AdoptionCenter`: the adoption form of `src/AdoptionCenter.jsx`. It covers
  ECMAScript `trim`, the `canStart` check, the animal and theme tables, theme lookup by id, and a class
  `Form` for the three form fields with its submit handler.
- `pixel_pet.dfy`, module `PixelPet`: the one decision the pet renderer takes from its `mood` input, which face to draw.
- `wrappers.dfy`, module `Wrappers`: `Option`, standing for a value that may be `null`.

Modelling choices:

- Timers are events. The 3-second decay interval is the `DecayTick` event. The 8-second timeout scheduled by
  the game button is the `EndGame` event. Both may fire at any time, on either screen.
- Buttons are events of the screen that renders them. The adoption form is shown while no pet exists
  (`src/App.jsx:67`), the game screen afterwards. A click on a button that is not on screen cannot happen, so
  `Step` leaves the state unchanged for it, and the `App` methods require the screen their button lives on.
- JavaScript's `/` in `(hunger + happiness) / 2` is floating-point division. It is exact for these integer
  sums, which lie in [0, 200], so `Mood` is a `real`.
- Feed, Play and the game start are not refused while the pet sleeps or a game runs. The code has no mood
  threshold. `handleAdopt` refuses only the empty string, so a name of spaces is adopted
  (`SpaceNameAdoptedHereRefusedThere`).
- The mood handed to the renderer is a number, but the renderer compares it with the words `'sad'` and
  `'happy'`. So the pet always shows the neutral face (`ShownFace`).

## Model

| member | source | states |
|---|---|---|
| `PixelPetApp.Initial` | src/App.jsx:7-20 | on load the saved pet (or none) is restored, both needs are 100, the pet is awake, no game runs, the form holds an empty name, the cat and the default colour `#f472b6`; the invariant holds |
| `PixelPetApp.Drained` | src/App.jsx:33-34 | `Math.max(0, v - 2)`: never negative, exactly two lower when `v >= 2`, zero otherwise |
| `PixelPetApp.Boosted` | src/App.jsx:122-123 | `Math.min(100, v + 15)`: never above 100, exactly fifteen higher when that fits, 100 otherwise |
| `PixelPetApp.Decayed` | src/App.jsx:30-38 | a tick while awake and adopted lowers each need by exactly 2, never below 0; asleep or with no pet it changes nothing; it never changes anything but the needs, and keeps both needs in [0, 100] |
| `PixelPetApp.Fed` | src/App.jsx:122 | Feed sets hunger to min(100, hunger + 15) and changes nothing else; Feed at 100 is a no-op; range kept |
| `PixelPetApp.Played` | src/App.jsx:123 | Play sets happiness to min(100, happiness + 15) and changes nothing else (hunger included); Play at 100 is a no-op; range kept |
| `PixelPetApp.SleepToggled` | src/App.jsx:124 | Sleep flips the sleeping flag and touches no need, coin or other field |
| `PixelPetApp.PetClicked` | src/App.jsx:108-111 | a click on the pet adds exactly 5 coins while the game runs and changes nothing otherwise; coins never fall |
| `PixelPetApp.Adopted` | src/App.jsx:53-62 | an empty name changes nothing; any other name, spaces included, creates the pet from the form's name, type and colour with 0 coins and no accessories, changing nothing else |
| `PixelPetApp.Step` | src/App.jsx:30-125 | every event keeps both needs in [0, 100] and the game running only with a pet; coins never fall; an adopted pet stays, with the same name, kind and colour; an event whose button is not on screen changes nothing |
| `PixelPetApp.RunKeepsWf` | src/App.jsx:12-15 | the invariant (needs in [0, 100], game only with a pet) holds after any sequence of events |
| `PixelPetApp.NeedsStayInRange` | src/App.jsx:12-13 | starting from any load (100/100), hunger and happiness stay in [0, 100] under any sequence of ticks, Feed, Play and every other event |
| `PixelPetApp.RunKeepsCoinsAndPet` | src/App.jsx:56-62 | over any sequence of events the balance never falls, and an adopted pet is never removed or renamed |
| `PixelPetApp.FreshPetCoinsNonNegative` | src/App.jsx:60 | a pet adopted in the session starts at 0 coins and never has a negative balance |
| `PixelPetApp.ClicksInGame` | src/App.jsx:110 | N clicks while the game runs add exactly 5·N coins and change nothing else |
| `PixelPetApp.ClicksOutsideGame` | src/App.jsx:110 | any number of clicks while no game runs change nothing |
| `PixelPetApp.TicksWhileAwake` | src/App.jsx:31-36 | N ticks while awake and adopted leave each need at max(0, need - 2·N) and change nothing else |
| `PixelPetApp.FiftyTicksEmptyTheNeeds` | src/App.jsx:12-13 | a pet loaded at 100/100 and left awake has both needs at 0 after 50 ticks |
| `PixelPetApp.GameButtonThenClicks` | src/App.jsx:108-125 | the game button is honoured with a pet on screen, asleep or with a game running; after it N clicks earn exactly 5·N coins and the game is on |
| `PixelPetApp.TicksWhilePaused` | src/App.jsx:32 | asleep or before adoption, any number of ticks change nothing |
| `PixelPetApp.ToggleSleepTwice` | src/App.jsx:124 | pressing Sleep twice restores the state exactly |
| `PixelPetApp.Mood` | src/App.jsx:112 | the mood is the exact average of the two needs, within [0, 100] when they are |
| `PixelPetApp.ShownFace` | src/App.jsx:112 | the renderer, given the numeric mood, always draws the neutral face, whatever the needs |
| `PixelPetApp.SpaceNameAdoptedHereRefusedThere` | src/App.jsx:55 | the game's own form adopts a name made of one space, which the adoption center's check refuses |
| `PixelPetApp.App.constructor` | src/App.jsx:7-20 | a page load yields exactly the `Initial` state for the saved record |
| `PixelPetApp.App.DecayTick` | src/App.jsx:31-36 | the interval callback performs exactly the `DecayTick` step and keeps the invariant |
| `PixelPetApp.App.Feed` | src/App.jsx:122 | the Feed handler performs exactly the `Feed` step |
| `PixelPetApp.App.Play` | src/App.jsx:123 | the Play handler performs exactly the `Play` step |
| `PixelPetApp.App.ToggleSleep` | src/App.jsx:124 | the Sleep handler performs exactly the `ToggleSleep` step |
| `PixelPetApp.App.StartGame` | src/App.jsx:125 | the game button turns the game on, with no other check |
| `PixelPetApp.App.EndGame` | src/App.jsx:125 | the timeout turns the game off |
| `PixelPetApp.App.ClickPet` | src/App.jsx:108-110 | the pet's click handler performs exactly the `ClickPet` step |
| `PixelPetApp.App.TypeName` | src/App.jsx:76 | the name input stores the typed value |
| `PixelPetApp.App.PickType` | src/App.jsx:79-82 | a type button stores one of cat, dino, slime |
| `PixelPetApp.App.PickColor` | src/App.jsx:90 | the colour input stores the picked colour |
| `PixelPetApp.App.Adopt` | src/App.jsx:53-62 | `handleAdopt` performs exactly the `Adopt` step |
| `PixelPet.FaceFor` | src/PixelPet.jsx:1-4 | the sad face exactly for the word 'sad', the happy face exactly for 'happy', the neutral face for any number |
| `AdoptionCenter.KeptFrom` | src/AdoptionCenter.jsx:24 | scanning forward from an index, the first character `trim` keeps (or the end): everything skipped is white space |
| `AdoptionCenter.KeptUntil` | src/AdoptionCenter.jsx:24 | scanning backward to a bound, the end of the last character `trim` keeps (or the bound): everything skipped is white space |
| `AdoptionCenter.TrimStart` | src/AdoptionCenter.jsx:24 | the offset at which the trimmed string starts: everything before it is white space, and the character there, if any, is not |
| `AdoptionCenter.Trim` | src/AdoptionCenter.jsx:24 | `trim` returns the slice left after removing a leading and a trailing run of ECMAScript white space; the result neither starts nor ends with such a character |
| `AdoptionCenter.TrimOfTrimmed` | src/AdoptionCenter.jsx:29 | a string without white space at either end trims to itself |
| `AdoptionCenter.TrimIdempotent` | src/AdoptionCenter.jsx:29 | trimming the emitted name again is a no-op |
| `AdoptionCenter.TrimEmptyIff` | src/AdoptionCenter.jsx:24 | the trimmed name is empty exactly when every character is white space |
| `AdoptionCenter.CanStart` | src/AdoptionCenter.jsx:24 | `canStart` holds exactly when the name has a character that is not white space, that is, when the trimmed name has length > 0 |
| `AdoptionCenter.FindTheme` | src/AdoptionCenter.jsx:23 | `THEMES.find` yields nothing exactly when no entry has the id, and otherwise the first entry with that id |
| `AdoptionCenter.FindThemeOwnId` | src/AdoptionCenter.jsx:23 | with distinct ids, looking up an entry's id yields that entry |
| `AdoptionCenter.ThemeLookupAlwaysSucceeds` | src/AdoptionCenter.jsx:12-16 | the theme ids are distinct and each picker button's id finds its own entry |
| `AdoptionCenter.Form.constructor` | src/AdoptionCenter.jsx:19-21 | the form starts with an empty name, animal 'cat' (the first animal) and theme 'pink' (the first theme) |
| `AdoptionCenter.Form.TypeName` | src/AdoptionCenter.jsx:57-61 | the name input stores the typed value, which its `maxLength` keeps to at most 16 characters |
| `AdoptionCenter.Form.PickAnimal` | src/AdoptionCenter.jsx:78-82 | an animal button stores its animal's id, so the chosen animal is always one of the table's ids |
| `AdoptionCenter.Form.PickTheme` | src/AdoptionCenter.jsx:105-109 | a theme button stores its theme's id, so the theme id is always one of the table's ids |
| `AdoptionCenter.Form.SelectedTheme` | src/AdoptionCenter.jsx:23 | the selected theme is the unique table entry whose id is the picked one; the lookup never misses |
| `AdoptionCenter.Form.Submit` | src/AdoptionCenter.jsx:26-30 | nothing is emitted exactly when `canStart` fails; otherwise the trimmed name, the animal and the theme are emitted, and the name is non-empty, at most 16 characters and trims to itself |

## Left out

- Sound (`playSound`, `src/App.jsx:41-51`): a browser audio call with floating-point frequencies and gains, fire-and-forget, no effect on state.
- Storage (`src/App.jsx:7-10`, `23-27`, `126`): reading and writing the saved record and the reset button are I/O. A load is the `saved` parameter of `App.constructor` and `Initial`. A record that fails to parse is not modelled. The write after each change and the page reload are not modelled.
- Timer durations and overlapping timeouts: ticks and game ends are events that may come in any order. A second game start does not cancel the first timeout, so a game can end sooner than 8 s after the last start. That behaviour is one order of events among those `Run` covers. Real durations are not modelled.
- Rendering: the markup, styles and drawing components (`src/PixelPet.jsx` beyond its face choice, `src/PetCat.jsx`, `src/PetDino.jsx`, `src/PetSlime.jsx`), the `Component` field of the animal table, and the build configuration.
- `AdoptionCenter.Form.TypeName`: the 16-character cap is a precondition (the input never delivers more), and it is counted in code points, where the browser counts UTF-16 code units.
- The `accessories` list is only ever created empty; nothing in the modelled code adds to it.
