/**
 * The `Bartender` controller: it owns the pump configuration, builds the menu
 * tree, implements the two menu hooks (`prepareForRender`, `menuItemClicked`)
 * and pours drinks. The configuration file is the field `stored`, which
 * `writePumpConfiguration` overwrites; GPIO outputs, waits and the shutdown are
 * appended to the field `trace`.
 */
module Controller {
  import opened Results
  import opened Registry
  import opened Scheduler
  import opened Menus

  /** An entry of `drink_list`. */
  datatype DrinkSpec = DrinkSpec(name: string, ingredients: Recipe)

  /** An entry of `drink_options`: a selectable ingredient. */
  datatype OptionSpec = OptionSpec(name: string, value: string)

  // ---------------------------------------------------------------------------
  // The shape `buildMenu` produces (bartender.py:117-158)

  function DrinkTree(d: DrinkSpec): Tree {
    Tree(Drink(d.ingredients), d.name, true, [])
  }

  function SelectionTree(key: string, o: OptionSpec): Tree {
    Tree(PumpSelection(key, o.value, o.name), o.name, true, [])
  }

  const BackTree: Tree := Tree(Back, "Back", true, [])

  /** The fixed head of the "Configure" menu. */
  const ConfigureHead: seq<Tree> :=
    [BackTree, Tree(Kind.Clean, "Clean", true, []), Tree(Kind.Shutdown, "Shutdown", true, [])]

  /** A pump's submenu: one selection per drink option, then Back. */
  function PumpMenuTree(p: Pump, opts: seq<OptionSpec>): Tree {
    Tree(Submenu, p.name, true,
      seq(|opts|, i requires 0 <= i < |opts| => SelectionTree(p.key, opts[i])) + [BackTree])
  }

  function PumpMenus(cfg: Config, ks: seq<string>, opts: seq<OptionSpec>): seq<Tree>
    requires forall k :: k in ks ==> HasKey(cfg, k)
  {
    seq(|ks|, i requires 0 <= i < |ks| => PumpMenuTree(Lookup(cfg, ks[i]), opts))
  }

  /** "Configure": Back, Clean, Shutdown, then one submenu per pump in ascending key order. */
  function ConfigureTree(cfg: Config, opts: seq<OptionSpec>): Tree {
    Tree(Submenu, "Configure", true, ConfigureHead + PumpMenus(cfg, SortedKeys(cfg), opts))
  }

  function DrinkTrees(drinks: seq<DrinkSpec>): seq<Tree> {
    seq(|drinks|, i requires 0 <= i < |drinks| => DrinkTree(drinks[i]))
  }

  /** "Main Menu": the drinks in list order, then "Configure". */
  function MainTree(drinks: seq<DrinkSpec>, opts: seq<OptionSpec>, cfg: Config): Tree {
    Tree(Submenu, "Main Menu", true, DrinkTrees(drinks) + [ConfigureTree(cfg, opts)])
  }

  /** `menu.addOption(MenuItem(kind, name))` for a new item without options. */
  method AddLeaf(menu: Item, kind: Kind, name: string)
    requires menu.Valid() && menu.kind.Submenu?
    modifies menu
    ensures menu.Valid() && fresh(menu.Repr - old(menu.Repr))
    ensures menu.model == old(menu.model).(options := old(menu.model).options + [Tree(kind, name, true, [])])
  {
    var item := new Item(kind, name);
    menu.AddOption(item);
  }

  /** The loop body of `buildMenu` for one pump (lines 131-139). */
  method NewPumpMenu(p: Pump, drinkOptions: seq<OptionSpec>) returns (config: Item)
    ensures fresh(config.Repr) && config.Valid()
    ensures config.model == PumpMenuTree(p, drinkOptions)
  {
    config := new Item(Submenu, p.name);
    for j := 0 to |drinkOptions|
      invariant config.Valid() && fresh(config.Repr)
      invariant config.model ==
        Tree(Submenu, p.name, true, seq(j, k requires 0 <= k < j => SelectionTree(p.key, drinkOptions[k])))
    {
      var opt := drinkOptions[j];
      AddLeaf(config, PumpSelection(p.key, opt.value, opt.name), opt.name);
      assert seq(j + 1, k requires 0 <= k < j + 1 => SelectionTree(p.key, drinkOptions[k]))
        == seq(j, k requires 0 <= k < j => SelectionTree(p.key, drinkOptions[k])) + [SelectionTree(p.key, opt)];
    }
    AddLeaf(config, Back, "Back");
  }

  /** "Configure" holding Back, Clean and Shutdown (lines 126, 144-150). */
  method NewConfigureHead() returns (configurationMenu: Item)
    ensures fresh(configurationMenu.Repr) && configurationMenu.Valid()
    ensures configurationMenu.model == Tree(Submenu, "Configure", true, ConfigureHead)
  {
    configurationMenu := new Item(Submenu, "Configure");
    AddLeaf(configurationMenu, Back, "Back");
    AddLeaf(configurationMenu, Kind.Clean, "Clean");
    AddLeaf(configurationMenu, Kind.Shutdown, "Shutdown");
  }

  /** The "Configure" menu of `buildMenu` (lines 126-153). */
  method NewConfigureMenu(cfg: Config, drinkOptions: seq<OptionSpec>) returns (configurationMenu: Item)
    ensures fresh(configurationMenu.Repr) && configurationMenu.Valid()
    ensures configurationMenu.model == ConfigureTree(cfg, drinkOptions)
  {
    configurationMenu := NewConfigureHead();
    var keys := SortedKeys(cfg);
    for k := 0 to |keys|
      invariant configurationMenu.Valid() && fresh(configurationMenu.Repr)
      invariant configurationMenu.model ==
        Tree(Submenu, "Configure", true, ConfigureHead + PumpMenus(cfg, keys[..k], drinkOptions))
    {
      var config := NewPumpMenu(Lookup(cfg, keys[k]), drinkOptions);
      configurationMenu.AddOption(config);
      assert keys[..k + 1] == keys[..k] + [keys[k]];
      assert PumpMenus(cfg, keys[..k + 1], drinkOptions)
        == PumpMenus(cfg, keys[..k], drinkOptions) + [config.model];
    }
    assert keys[..|keys|] == keys;
  }

  // ---------------------------------------------------------------------------
  // The controller

  class Bartender {
    /** `pump_configuration`, in memory. */
    var pumps: Config
    /** The contents of `pump_config.json`. */
    var stored: Config
    /** What has been sent to the hardware, in order. */
    var trace: seq<Event>
    /** The root of the menu tree handed to the menu context. */
    var menu: Item?

    ghost predicate Valid()
      reads this
    {
      KeysUnique(pumps)
    }

    /** `__init__`: the configuration is read from the file. */
    constructor (file: Config)
      requires KeysUnique(file)
      ensures Valid() && pumps == file && stored == file && trace == [] && menu == null
    {
      pumps := file;
      stored := file;
      trace := [];
      menu := null;
    }

    /** `buildMenu(drink_list, drink_options)`. */
    method BuildMenu(drinkList: seq<DrinkSpec>, drinkOptions: seq<OptionSpec>)
      requires Valid()
      modifies this`menu
      ensures Valid() && menu != null && fresh(menu.Repr) && menu.Valid()
      ensures menu.model == MainTree(drinkList, drinkOptions, pumps)
    {
      var configurationMenu := NewConfigureMenu(pumps, drinkOptions);
      var m := new Item(Submenu, "Main Menu");
      for i := 0 to |drinkList|
        invariant m.Valid() && fresh(m.Repr)
        invariant m.model == Tree(Submenu, "Main Menu", true, DrinkTrees(drinkList[..i]))
        invariant configurationMenu.Valid() && fresh(configurationMenu.Repr)
        invariant m.Repr !! configurationMenu.Repr
        invariant configurationMenu.model == ConfigureTree(pumps, drinkOptions)
      {
        var d := drinkList[i];
        AddLeaf(m, Drink(d.ingredients), d.name);
        assert drinkList[..i + 1] == drinkList[..i] + [d];
        assert DrinkTrees(drinkList[..i + 1]) == DrinkTrees(drinkList[..i]) + [DrinkTree(d)];
      }
      assert drinkList[..|drinkList|] == drinkList;
      m.AddOption(configurationMenu);
      menu := m;
    }

    /** `prepareForRender(menu)`: `filterDrinks`, then `selectConfigurations`; answers true. */
    method PrepareForRender(m: Item) returns (r: bool)
      requires Valid() && m.Valid() && KeysPresent(m.model, pumps)
      modifies m.Repr
      ensures Valid() && m.Valid() && m.Repr == old(m.Repr) && r
      ensures m.model == Prepare(old(m.model), pumps)
      ensures KeysPresent(m.model, pumps)
    {
      FilterDrinks(m, pumps);
      FilterKeepsKeys(old(m.model), pumps);
      SelectConfigurations(m, pumps);
      PrepareKeepsKeys(old(m.model), pumps);
      r := true;
    }

    /**
     * `makeDrink`: plan the pour, start every planned pump, stop each after its
     * difference. With nothing to pour it fails before touching any pin.
     */
    method MakeDrink(ingredients: Recipe) returns (out: Outcome)
      modifies this`trace
      ensures var plan := Matches(ingredients, pumps);
        if plan == [] then out == Fail(NothingToPour) && trace == old(trace)
        else out == Pass && trace == old(trace) + PourTrace(Deltas(SortByTime(plan)))
    {
      var planned := PlanPour(ingredients, pumps);
      if planned.Failure? {
        return Fail(planned.error);
      }
      var events := Dispense(planned.value.steps);
      trace := trace + events;
      out := Pass;
    }

    /** `clean`: every pump's pin, in configuration order, LOW for ten seconds, then HIGH. */
    method Clean()
      modifies this`trace
      ensures trace == old(trace) + CleanTrace(PumpPins(pumps))
    {
      var pins: seq<int> := [];
      for k := 0 to |pumps|
        invariant pins == PumpPins(pumps[..k])
      {
        pins := pins + [pumps[k].pin];
        assert PumpPins(pumps[..k + 1]) == PumpPins(pumps[..k]) + [pumps[k].pin];
      }
      assert pumps[..|pumps|] == pumps;
      trace := trace + CleanTrace(pins);
    }

    /** `shutdown`: the halt of the system. */
    method Shutdown()
      modifies this`trace
      ensures trace == old(trace) + [Halt]
    {
      trace := trace + [Halt];
    }

    /**
     * `menuItemClicked(menuItem)`: pours a drink, assigns an ingredient to a
     * pump (and saves the configuration), cleans or shuts down, answering
     * true; any other item is not handled, answering false. The exceptions the
     * source lets escape are returned as failures.
     */
    method MenuItemClicked(item: Item) returns (r: Result<bool, Error>)
      requires Valid()
      modifies this`pumps, this`stored, this`trace
      ensures Valid()
      ensures item.kind.Drink? ==>
        && pumps == old(pumps) && stored == old(stored)
        && var plan := Matches(item.kind.ingredients, pumps);
           if plan == [] then r == Failure(NothingToPour) && trace == old(trace)
           else r == Success(true) && trace == old(trace) + PourTrace(Deltas(SortByTime(plan)))
      ensures item.kind.PumpSelection? ==>
        && trace == old(trace)
        && if HasKey(old(pumps), item.kind.key) then
             r == Success(true) && pumps == SetValue(old(pumps), item.kind.key, item.kind.value) && stored == pumps
           else
             r == Failure(UnknownPump(item.kind.key)) && pumps == old(pumps) && stored == old(stored)
      ensures item.kind.Clean? ==>
        r == Success(true) && pumps == old(pumps) && stored == old(stored)
        && trace == old(trace) + CleanTrace(PumpPins(pumps))
      ensures item.kind.Shutdown? ==>
        r == Success(true) && pumps == old(pumps) && stored == old(stored) && trace == old(trace) + [Halt]
      ensures item.kind.Back? || item.kind.Submenu? ==>
        r == Success(false) && pumps == old(pumps) && stored == old(stored) && trace == old(trace)
    {
      match item.kind
      case Drink(ingredients) =>
        var out := MakeDrink(ingredients);
        r := if out.Pass? then Success(true) else Failure(out.error);
      case PumpSelection(key, value, _) =>
        if !HasKey(pumps, key) {
          return Failure(UnknownPump(key));
        }
        SetValueChangesOnlyValue(pumps, key, value);
        pumps := SetValue(pumps, key, value);
        stored := pumps;
        r := Success(true);
      case Clean =>
        Clean();
        r := Success(true);
      case Shutdown =>
        Shutdown();
        r := Success(true);
      case _ =>
        r := Success(false);
    }
  }

  // ---------------------------------------------------------------------------
  // Properties of the built menu

  /** A drink the filter shows has as many plan entries as ingredients, so a plan unless it has no ingredients. */
  lemma VisibleDrinkPours(ingredients: Recipe, cfg: Config)
    requires DrinkVisible(ingredients, cfg)
    ensures |Matches(ingredients, cfg)| == |ingredients|
    ensures ingredients != [] ==> Matches(ingredients, cfg) != []
  {
    MatchesCount(ingredients, cfg);
  }

  /**
   * When no ingredient of the drink sits on two pumps, the filter shows it
   * exactly when every ingredient contributes exactly one plan entry.
   */
  lemma VisibleDrinkOneEntryEach(ingredients: Recipe, cfg: Config)
    requires forall i :: 0 <= i < |ingredients| ==> AtMostOnePump(ingredients[i].ingredient, cfg)
    ensures DrinkVisible(ingredients, cfg) <==>
      forall i :: 0 <= i < |ingredients| ==> |PortionTimes(ingredients[i], cfg)| == 1
  {
    CoverageIff(ingredients, cfg);
    forall i | 0 <= i < |ingredients|
      ensures |PortionTimes(ingredients[i], cfg)| == 1 <==> Assigned(ingredients[i].ingredient, cfg)
    {
      PortionTimesCount(ingredients[i], cfg);
      PumpCountMeaning(ingredients[i].ingredient, cfg);
    }
  }

  /**
   * What the docstring of `filterDrinks` promises to keep: drinks each of whose
   * ingredients is on some pump.
   */
  predicate DrinkPourable(ingredients: Recipe, cfg: Config) {
    forall i :: 0 <= i < |ingredients| ==> Assigned(ingredients[i].ingredient, cfg)
  }

  /** Every ingredient is on some pump exactly when every ingredient puts at least one entry in the plan. */
  lemma PourableIffPlanned(ingredients: Recipe, cfg: Config)
    ensures DrinkPourable(ingredients, cfg) <==>
      forall i :: 0 <= i < |ingredients| ==> PortionTimes(ingredients[i], cfg) != []
  {
    forall i | 0 <= i < |ingredients|
      ensures PortionTimes(ingredients[i], cfg) != [] <==> Assigned(ingredients[i].ingredient, cfg)
    {
      PortionTimesCount(ingredients[i], cfg);
      PumpCountMeaning(ingredients[i].ingredient, cfg);
    }
  }

  /** With no ingredient on two pumps, the count of `filterDrinks` shows exactly the drinks each of whose ingredients is on some pump. */
  lemma VisibleIffPourable(ingredients: Recipe, cfg: Config)
    requires forall i :: 0 <= i < |ingredients| ==> AtMostOnePump(ingredients[i].ingredient, cfg)
    ensures DrinkVisible(ingredients, cfg) <==> DrinkPourable(ingredients, cfg)
  {
    CoverageIff(ingredients, cfg);
  }

  /**
   * With two vodka pumps and none for gin, `filterDrinks` shows a vodka-and-gin
   * drink whose gin is on no pump, and hides a vodka-only drink whose one
   * ingredient is on some pump (`makeDrink` would pour it from both pumps).
   */
  lemma DuplicatePumpShowsUnpourable()
    ensures var cfg := [Pump("pump_1", "Pump 1", "vodka", 17), Pump("pump_2", "Pump 2", "vodka", 27)];
      var mixed := [Portion("vodka", 50.0), Portion("gin", 50.0)];
      var neat := [Portion("vodka", 50.0)];
      && DrinkVisible(mixed, cfg) && !DrinkPourable(mixed, cfg)
      && !DrinkVisible(neat, cfg) && DrinkPourable(neat, cfg)
  {
    DuplicatePumpMiscounts();
    var cfg := [Pump("pump_1", "Pump 1", "vodka", 17), Pump("pump_2", "Pump 2", "vodka", 27)];
    var mixed := [Portion("vodka", 50.0), Portion("gin", 50.0)];
    assert mixed[1].ingredient == "gin";
    assert [Portion("vodka", 50.0)][0].ingredient == "vodka";
  }

  /** Every pump selection of the built menu names a configured pump, so starring it cannot fail. */
  lemma BuiltMenuKeysPresent(drinks: seq<DrinkSpec>, opts: seq<OptionSpec>, cfg: Config)
    ensures KeysPresent(MainTree(drinks, opts, cfg), cfg)
  {
    var ks := SortedKeys(cfg);
    var conf := ConfigureTree(cfg, opts);
    forall j | 3 <= j < |conf.options| ensures KeysPresent(conf.options[j], cfg) {
      var k := j - 3;
      var pm := PumpMenuTree(Lookup(cfg, ks[k]), opts);
      assert conf.options[j] == pm;
      assert Lookup(cfg, ks[k]).key == ks[k];
      forall i | 0 <= i < |pm.options| ensures KeysPresent(pm.options[i], cfg) {
        if i < |opts| {
          assert pm.options[i] == SelectionTree(ks[k], opts[i]);
        } else {
          assert pm.options[i] == BackTree;
        }
      }
    }
    forall k | 0 <= k < 3 ensures KeysPresent(conf.options[k], cfg) {
      assert conf.options[k] == ConfigureHead[k];
    }
    assert KeysPresent(conf, cfg);
    var main := MainTree(drinks, opts, cfg);
    forall i | 0 <= i < |main.options| ensures KeysPresent(main.options[i], cfg) {
      if i < |drinks| {
        assert main.options[i] == DrinkTree(drinks[i]);
      } else {
        assert main.options[i] == conf;
      }
    }
  }

  /**
   * The rendered main menu: drinks in list order, each shown exactly when the
   * filter's count says so, followed by the rendered "Configure" menu.
   */
  lemma MainRendered(drinks: seq<DrinkSpec>, opts: seq<OptionSpec>, cfg: Config, now: Config)
    ensures var r := Prepare(MainTree(drinks, opts, cfg), now);
      && r.name == "Main Menu" && |r.options| == |drinks| + 1
      && (forall k :: 0 <= k < |drinks| ==>
            && r.options[k].kind == Drink(drinks[k].ingredients)
            && r.options[k].name == drinks[k].name
            && r.options[k].visible == DrinkVisible(drinks[k].ingredients, now))
      && r.options[|drinks|] == Prepare(ConfigureTree(cfg, opts), now)
  {
    var main := MainTree(drinks, opts, cfg);
    forall k | 0 <= k < |drinks| ensures Prepare(main, now).options[k] == SelectItem(FilterItem(DrinkTree(drinks[k]), now), now) {
      assert main.options[k] == DrinkTree(drinks[k]);
      PrepareOption(main, now, k);
    }
    assert main.options[|drinks|] == ConfigureTree(cfg, opts);
    PrepareOption(main, now, |drinks|);
  }

  /** The rendered "Configure" menu: Back, Clean and Shutdown as built, then each pump's rendered submenu in key order. */
  lemma ConfigureRendered(cfg: Config, opts: seq<OptionSpec>, now: Config)
    ensures var ks := SortedKeys(cfg);
      var r := Prepare(ConfigureTree(cfg, opts), now);
      && |r.options| == 3 + |ks|
      && r.options[..3] == ConfigureHead
      && forall k :: 0 <= k < |ks| ==> r.options[3 + k] == Prepare(PumpMenuTree(Lookup(cfg, ks[k]), opts), now)
  {
    var ks := SortedKeys(cfg);
    var conf := ConfigureTree(cfg, opts);
    var r := Prepare(conf, now);
    forall k | 0 <= k < 3 ensures r.options[k] == ConfigureHead[k] {
      assert conf.options[k] == ConfigureHead[k];
      PrepareOption(conf, now, k);
    }
    forall k | 0 <= k < |ks| ensures r.options[3 + k] == Prepare(PumpMenuTree(Lookup(cfg, ks[k]), opts), now) {
      assert conf.options[3 + k] == PumpMenuTree(Lookup(cfg, ks[k]), opts);
      PrepareOption(conf, now, 3 + k);
    }
    PrepareOption(conf, now, 0);
  }

  /**
   * A rendered pump submenu: each option keeps its selection and is starred
   * exactly when pump `p.key` is configured with the option's value; Back stays last.
   */
  lemma PumpMenuRendered(p: Pump, opts: seq<OptionSpec>, now: Config)
    ensures var r := Prepare(PumpMenuTree(p, opts), now);
      && r.kind == Submenu && r.name == p.name && r.visible
      && |r.options| == |opts| + 1
      && r.options[|opts|] == BackTree
      && forall i :: 0 <= i < |opts| ==>
           r.options[i] == Tree(PumpSelection(p.key, opts[i].value, opts[i].name),
                                if Selected(p.key, opts[i].value, now) then opts[i].name + " *" else opts[i].name,
                                true, [])
  {
    var pm := PumpMenuTree(p, opts);
    forall i | 0 <= i < |opts|
      ensures Prepare(pm, now).options[i] == SelectItem(FilterItem(SelectionTree(p.key, opts[i]), now), now)
    {
      assert pm.options[i] == SelectionTree(p.key, opts[i]);
      PrepareOption(pm, now, i);
    }
    assert pm.options[|opts|] == BackTree;
    PrepareOption(pm, now, |opts|);
  }

  /**
   * Choosing value `v` for pump `key` (a pump-selection click) and rendering
   * again stars, in that pump's submenu, exactly the options whose value is `v`.
   */
  lemma StarFollowsChoice(cfg: Config, key: string, v: string, opts: seq<OptionSpec>)
    requires KeysUnique(cfg) && HasKey(cfg, key)
    ensures var r := Prepare(PumpMenuTree(Lookup(cfg, key), opts), SetValue(cfg, key, v));
      && |r.options| == |opts| + 1
      && forall i :: 0 <= i < |opts| ==>
           r.options[i].name == if opts[i].value == v then opts[i].name + " *" else opts[i].name
  {
    SetValueChangesOnlyValue(cfg, key, v);
    PumpMenuRendered(Lookup(cfg, key), opts, SetValue(cfg, key, v));
  }

  /** The same click leaves the rendered submenu of every other pump as it was. */
  lemma OtherPumpMenusUnchanged(cfg: Config, key: string, v: string, opts: seq<OptionSpec>, q: Pump)
    requires KeysUnique(cfg) && q.key != key
    ensures Prepare(PumpMenuTree(q, opts), SetValue(cfg, key, v)) == Prepare(PumpMenuTree(q, opts), cfg)
  {
    SetValueChangesOnlyValue(cfg, key, v);
    var now := SetValue(cfg, key, v);
    PumpMenuRendered(q, opts, now);
    PumpMenuRendered(q, opts, cfg);
    var a := Prepare(PumpMenuTree(q, opts), now);
    var b := Prepare(PumpMenuTree(q, opts), cfg);
    assert forall i :: 0 <= i < |opts| ==> Selected(q.key, opts[i].value, now) == Selected(q.key, opts[i].value, cfg);
    assert forall i :: 0 <= i < |a.options| ==> a.options[i] == b.options[i];
    assert a.options == b.options;
  }
}
