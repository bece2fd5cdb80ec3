# Smart-Bartender controller, modelled in Dafny

This project models the `Bartender` controller of the Smart-Bartender, a
Raspberry-Pi cocktail machine. Pumps, each on one GPIO pin, hold the
ingredients. A small OLED menu lets the user pick a drink or assign an
ingredient to a pump. The model covers four parts of `bartender.py`:

- **Pour plan and pin driving** (`makeDrink`), in `scheduler.dfy`. The
  recipe is matched against the pump configuration, giving one
  `(pin, volume × FLOW_RATE)` entry per matching (ingredient, pump) pair.
  The entries are sorted stably by time and the last time is noted as the
  total. The times are then rewritten in place, walking backwards, as
  differences from the previous entry. Pin driving is recorded as a trace
  of events: every planned pin LOW at once, then per entry an optional wait
  and that pin HIGH. The cleaning cycle (`clean`) is a trace of its own.
- **Pump configuration** (`pump_config.json` held in `pump_configuration`),
  in `registry.dfy`. It covers look-up and assignment of an ingredient to a
  pump, the (ingredient, pump) counting of `filterDrinks`, and the sorted
  key order `buildMenu` uses.
- **Menu tree and its two passes**, in `menus.dfy`. Menu items are objects
  (`Item`) whose `name`, `visible` and `options` are changed in place. Each
  item carries a ghost value of its subtree (`Tree`) and a ghost footprint.
  `filterDrinks` and `selectConfigurations` are loops over the options that
  recurse into submenus. Each is proved to turn the tree into a pure
  function of it, and those functions are proved to do what the program
  promises.
- **The controller** (`Bartender`), in `controller.dfy`. It covers
  `buildMenu`, `prepareForRender`, `menuItemClicked`, `makeDrink`, `clean`
  and `shutdown`. The in-memory configuration, the configuration file, the
  hardware trace and the menu root are fields of the class.

Exceptions the program lets escape become `Failure` values (`results.dfy`):
- `IndexError` at `pumpTimes[-1]` when nothing matches becomes `NothingToPour`.
- `KeyError` on an unknown pump key becomes `UnknownPump`.

The code counts matching (ingredient, pump) pairs. So a drink is shown
exactly when every ingredient is assigned only if no ingredient sits on two
pumps. `Registry.CoverageIff` proves the equivalence under that condition.
`Registry.DuplicatePumpMiscounts` shows it failing without it: two vodka
pumps make a vodka-and-gin drink visible with no gin pump and hide a
vodka-only drink. The model follows the code's count.

## Model

| member | source | states |
|---|---|---|
| Registry.Find | bartender.py:188 | an option-valued stand-in for `pump_configuration[key]`: present exactly when some pump has the key, returns an entry with that key, and with unique keys it is that entry |
| Registry.Lookup | bartender.py:131 | `pump_configuration[p]` for a present key is a configured pump with that key |
| Registry.SetValueChangesOnlyValue | bartender.py:205 | assigning a value keeps the keys unique and unchanged, changes no key, name or pin, changes only the chosen pump's value, and leaves every other key's entry as it was |
| Registry.PumpCountMeaning | bartender.py:173-175 | the inner count over the pumps is positive exactly when some pump holds the ingredient, and at most one when at most one does |
| Registry.CoverageIff | bartender.py:167-177 | when no ingredient is on two pumps, the pair count is at most the ingredient count, and equals it exactly when every ingredient is assigned |
| Registry.DuplicatePumpMiscounts | bartender.py:172-176 | with two vodka pumps, a vodka-and-gin recipe reaches the count with gin unassigned, and a vodka-only recipe overshoots it |
| Registry.StrLeTotal | bartender.py:130 | the string order `sorted` uses is total |
| Registry.SortStringsSorted | bartender.py:130 | sorting strings gives an ascending sequence that is a permutation of its input |
| Registry.SortedKeys | bartender.py:130 | `sorted(pump_configuration.keys())` is ascending, a permutation of the keys, and holds exactly the configured keys |
| Scheduler.CollectPumpTimes | bartender.py:282-287 | the nested loops build exactly the matches, ingredient by ingredient and pump by pump |
| Scheduler.PortionTimesCount | bartender.py:284-287 | one ingredient contributes one entry per pump holding it, so none when unassigned |
| Scheduler.MatchesCount | bartender.py:282-287 | the plan has as many entries as `filterDrinks` counts matching pairs |
| Scheduler.MatchesSound | bartender.py:282-287 | every entry of the plan comes from some ingredient and a pump holding it, with that pump's pin and volume × flow rate |
| Scheduler.MatchesComplete | bartender.py:282-287 | every (ingredient, pump holding it) pair contributes its entry |
| Scheduler.MatchesMembers | bartender.py:282-287 | an entry is in the plan if and only if some matching pair produces it |
| Scheduler.InsertByTimeSorted | bartender.py:290 | inserting an entry into a time-sorted list keeps it sorted |
| Scheduler.SortByTimeSorted | bartender.py:290 | the sort returns a time-sorted permutation of the entries, of the same length |
| Scheduler.InsertByTimeStable | bartender.py:290 | insertion places an entry ahead of every entry of its own time |
| Scheduler.SortByTimeStable | bartender.py:290 | the sort is stable: entries of any one time keep their collection order |
| Scheduler.LastIsMax | bartender.py:293 | the last sorted time is the maximum of the collected times and is one of them |
| Scheduler.ToRelative | bartender.py:296-297 | the backward in-place loop leaves the first time and subtracts from every later time its predecessor's original time |
| Scheduler.RelativeTimes | bartender.py:296-297 | the array rewrite yields the differences of the sorted plan |
| Scheduler.OffsetsRoundTrip | bartender.py:296-297 | prefix sums of the differences give back the absolute times, whatever the start |
| Scheduler.DeltasTelescope | bartender.py:296-297 | the sum of the first k+1 differences is the k-th absolute time |
| Scheduler.DeltasTotal | bartender.py:293-297 | the differences add up to the total time |
| Scheduler.PlanFacts | bartender.py:290-297 | for a non-empty plan: the last sorted time is the maximum, the differences sum to it, the length is kept, and every difference after the first is non-negative |
| Scheduler.PlanPour | bartender.py:281-297 | fails with IndexError exactly when nothing matches; otherwise returns the differences of the stably sorted matches, with the maximum time as total, equal to their sum, one step per match, later steps non-negative |
| Scheduler.StopStepsAppend | bartender.py:305-310 | the stop steps of a concatenation are the concatenation of the stop steps |
| Scheduler.Dispense | bartender.py:304-310 | drives every planned pin LOW once, then per entry waits for a positive difference and sets its pin HIGH |
| Scheduler.StepsStopAt | bartender.py:305-310 | from any start not after the first time, the stop steps of a sorted plan stop each pin at its absolute time |
| Scheduler.PourStopsAtPlannedTimes | bartender.py:293-310 | the trace starts with every planned pin LOW, and run from time 0 it stops each pin in plan order at its absolute planned time |
| Scheduler.StopStepsShape | bartender.py:305-310 | after the start the trace only switches single pins HIGH and waits for positive durations, each a difference of the plan; zero differences add no wait |
| Scheduler.StopStepsWait | bartender.py:305-308 | the waits of the trace add up to the total of the differences |
| Scheduler.WaitedAppend | bartender.py:305-308 | waits of a concatenation add up |
| Scheduler.TotalFront | bartender.py:296-297 | a sum of times splits off its first term |
| Scheduler.CleanTrace | bartender.py:230-238 | the cleaning trace stops every pump pin at 10 s and waits 10 s in all |
| Scheduler.ScrewdriverMatches | bartender.py:282-287 | vodka 45 and soda 90 on pins 5 and 6 give entries of 27 s and 54 s |
| Scheduler.ScrewdriverPlan | bartender.py:282-310 | that drink sorts to 27 s and 54 s, has differences 27 and 27, and is poured by the trace LOW both, wait 27, pin 5 HIGH, wait 27, pin 6 HIGH |
| Menus.Item.constructor | bartender.py:119 | a new item or menu is valid, visible, without options, and its value says so |
| Menus.Item.AddOption | bartender.py:136-139 | `addOption` appends the child as the last option and grows the footprint by the child's |
| Menus.FilterMenuSpec | bartender.py:167-179 | after filtering, every drink at any depth is visible exactly when its pair count equals its ingredient count, and nothing but drinks' visibility changed |
| Menus.SelectMenuSpec | bartender.py:185-193 | after starring, every pump selection at any depth is named `name *` exactly when its pump holds its value, else `name`, and nothing but those names changed |
| Menus.FilterMenuIdempotent | bartender.py:163-179 | filtering twice equals filtering once |
| Menus.SelectMenuIdempotent | bartender.py:181-193 | starring twice equals starring once |
| Menus.MenuPassesCommute | bartender.py:195-197 | the two passes can run in either order |
| Menus.PrepareIdempotent | bartender.py:195-198 | rendering twice with one configuration equals rendering once |
| Menus.PrepareOption | bartender.py:167-193 | rendering keeps a menu's own fields and size, and renders each option on its own |
| Menus.FilterKeepsKeys | bartender.py:167-179 | filtering keeps every pump selection's key present |
| Menus.SelectKeepsKeys | bartender.py:181-193 | starring keeps every pump selection's key present, whichever configuration it stars by |
| Menus.PrepareKeepsKeys | bartender.py:195-197 | a rendered menu still names only configured pumps |
| Menus.KeysPresentSameKeys | bartender.py:205 | the key-presence of a tree depends only on which keys are configured |
| Menus.CountPresent | bartender.py:171-175 | the counting loops of `filterDrinks` compute the pair count |
| Menus.FilterOption | bartender.py:168-179 | one loop iteration recomputes a drink's visibility or filters a submenu, within the item's footprint |
| Menus.FilterDrinks | bartender.py:163-179 | the pass changes the menu in place into its filtered value and touches nothing outside its footprint |
| Menus.SelectOption | bartender.py:186-193 | one loop iteration renames a pump selection or stars a submenu, within the item's footprint |
| Menus.SelectConfigurations | bartender.py:181-193 | the pass changes the menu in place into its starred value and touches nothing outside its footprint |
| Controller.AddLeaf | bartender.py:136-137 | a new item without options is appended to a menu |
| Controller.NewPumpMenu | bartender.py:131-139 | a pump's submenu: the pump's name, one selection per drink option in order, then Back |
| Controller.NewConfigureHead | bartender.py:144-150 | "Configure" with Back, Clean and Shutdown |
| Controller.NewConfigureMenu | bartender.py:126-153 | "Configure" with Back, Clean, Shutdown, then the pump submenus in ascending key order |
| Controller.Bartender.constructor | bartender.py:87-88 | the controller starts with the configuration read from the file, an empty trace and no menu |
| Controller.Bartender.BuildMenu | bartender.py:117-158 | builds a fresh valid tree: "Main Menu" with the drinks in list order, then "Configure" as above |
| Controller.Bartender.PrepareForRender | bartender.py:195-198 | filters then stars the menu in place and answers true, leaving a menu that still names only configured pumps, so it can be rendered again |
| Controller.Bartender.MakeDrink | bartender.py:281-310 | fails with IndexError and drives no pin when nothing matches; otherwise appends the pour trace of the stably sorted matches' differences |
| Controller.Bartender.Clean | bartender.py:230-238 | appends the cleaning trace over every pump's pin in configuration order |
| Controller.Bartender.Shutdown | bartender.py:324-331 | appends the halt event |
| Controller.Bartender.MenuItemClicked | bartender.py:200-214 | a drink pours or fails as `makeDrink`; a pump selection assigns its value to its pump and saves the configuration, or fails with KeyError and changes nothing; clean and shutdown run; all of these answer true, other items answer false and change nothing |
| Controller.VisibleDrinkPours | bartender.py:176-177 | a drink the filter shows has as many plan entries as ingredients, so a non-empty plan when it has any ingredient |
| Controller.VisibleDrinkOneEntryEach | bartender.py:172-177 | when no ingredient of the drink is on two pumps, it is shown exactly when every ingredient contributes exactly one plan entry |
| Controller.PourableIffPlanned | bartender.py:164-166 | every ingredient of a drink is on some pump exactly when every ingredient contributes a plan entry |
| Controller.VisibleIffPourable | bartender.py:164-177 | when no ingredient is on two pumps, the filter shows exactly the drinks each of whose ingredients is on some pump |
| Controller.DuplicatePumpShowsUnpourable | bartender.py:164-177 | with two vodka pumps and no gin pump, a vodka-and-gin drink is shown though its gin is on no pump, and a vodka-only drink is hidden though its one ingredient is on some pump |
| Controller.BuiltMenuKeysPresent | bartender.py:130-137 | every pump selection of the built tree names a configured pump, so starring never raises |
| Controller.MainRendered | bartender.py:117-158 | the rendered main menu holds the drinks in list order, each visible exactly when its count says so, then the rendered "Configure" |
| Controller.ConfigureRendered | bartender.py:126-153 | the rendered "Configure" holds Back, Clean and Shutdown unchanged, then each pump's rendered submenu in key order |
| Controller.PumpMenuRendered | bartender.py:131-139 | in a rendered pump submenu each option is starred exactly when the pump holds its value, and Back is last |
| Controller.StarFollowsChoice | bartender.py:204-205 | after choosing value v for a pump, its rendered submenu stars exactly the options whose value is v |
| Controller.OtherPumpMenusUnchanged | bartender.py:204-205 | after that choice, every other pump's rendered submenu is as before |

## Left out

- GPIO setup of the buttons and pump pins (lines 73-77, 89-90) is left out. The model starts with the pumps off and records only outputs.
- The display, the boot logo, `displayMenuItem` and `startProgressBar` are left out, since they are foreign library calls.
- `sleepAndProgress` is left out for wall-clock and progress-bar reasons. Each call is one `Sleep(duration)` event.
- Scheduler.PlanPour and Controller.Bartender.MakeDrink: recipe volumes are assumed positive. With a zero or negative volume the last sorted time (`totalTime`, line 293) can be 0 while a later difference is positive; `sleepAndProgress` then divides by `totalTime` (line 257) and raises ZeroDivisionError, leaving pumps running. That error is not modelled: the model returns the full plan and trace.
- Reading and writing `pump_config.json` is file I/O. The file is the field `stored`, which a pump-selection click overwrites with the configuration.
- Interrupt start and stop and the button callbacks are left out. They exist for concurrency.
- The `run` loop and `main` are left out.
- The process side of `shutdown` (GPIO cleanup, display, `os.system`) is left out. It becomes one `Halt` event.
- `FLOW_RATE` is the exact real 0.6, not a binary floating-point number.
- Menu navigation, `setParent` and `MenuContext` live in `menu.py`, which is not part of this model. Items, menus and Back items are assumed to start visible, with type `menu` for menus.
- The console `print` calls (lines 92, 299, 303, 310) are stdout logging and are not modelled.
- The pure passes `Menus.SelectMenu` and `Menus.Prepare` treat a pump selection whose key is not configured as not selected; the source raises KeyError there (line 188). The object-level `Menus.SelectConfigurations` and `Controller.Bartender.PrepareForRender` require every key to be configured instead. So the rendering lemmas (`Controller.MainRendered`, `Controller.ConfigureRendered`, `Controller.PumpMenuRendered`, `Controller.OtherPumpMenusUnchanged`) also describe renders with an unknown key that the source never completes.
- The unused `selected` variable of `buildMenu` has no effect and is not modelled.
- The contents of `drinks.py` are not part of this model. The drink and option lists are parameters of `BuildMenu`.
- Scheduler.SortByTime: the in-place `list.sort` is modelled as a stable insertion sort on values. It is not an in-place array sort.
- Controller.Bartender.PrepareForRender: requires every pump selection of the menu to name a configured pump. The KeyError `selectConfigurations` would raise otherwise is not modelled. `Controller.BuiltMenuKeysPresent` shows that the freshly built menu meets this, `PrepareForRender` itself ensures it again afterwards (`Menus.FilterKeepsKeys`, `Menus.SelectKeepsKeys`, `Menus.PrepareKeepsKeys`), and `Menus.KeysPresentSameKeys` shows that a pump-selection click keeps it, so every later render meets it too.
- Dictionaries are sequences of entries in iteration order. The configuration's keys are unique. A recipe is assumed to hold each ingredient once, as a dictionary does, but the model does not need this.

## Findings

| source | as written | input that shows it | evidently intended | confidence | as-written member | corrected member |
|---|---|---|---|---|---|---|
| bartender.py:164-177 | `filterDrinks` shows a drink when the number of (ingredient, pump) pairs with matching value equals its ingredient count | two pumps both holding vodka, none holding gin: the vodka-and-gin drink counts 2 of 2 and is shown, and the vodka drink counts 2 of 1 and is hidden | show exactly the drinks every ingredient of which is on some pump (the docstring at lines 164-166); for the vodka-only drink this is arguable, since `makeDrink` (lines 283-287) would pour from both pumps and double the vodka | not executed; follows from the source text | Registry.DuplicatePumpMiscounts, Controller.DuplicatePumpShowsUnpourable | Controller.DrinkPourable, with Controller.PourableIffPlanned and Controller.VisibleIffPourable |

The model keeps the count as written for `filterDrinks` (`Menus.DrinkVisible`). `Controller.VisibleIffPourable` proves that it agrees with the intended `Controller.DrinkPourable` whenever no ingredient sits on two pumps.

