/**
 * The menu tree the bartender builds and the two passes `prepareForRender` runs
 * over it before every render: `filterDrinks`, which recomputes the visibility
 * of every drink, and `selectConfigurations`, which stars the pump option that
 * is currently assigned.
 *
 * A menu item is an object whose `name`, `visible` and (for menus) `options`
 * the program changes in place. Its `type` and `attributes`, never written
 * after construction, are one value of the sum type `Kind`. Each item keeps a
 * ghost `model`, the value of its subtree, and a ghost footprint `Repr`.
 */
module Menus {
  import opened Results
  import opened Registry

  /** The item's `type` together with its `attributes`. */
  datatype Kind =
    | Drink(ingredients: Recipe)                               // 'drink', {"ingredients"}
    | PumpSelection(key: string, value: string, caption: string) // 'pump_selection', {"key", "value", "name"}
    | Clean                                                    // 'clean'
    | Shutdown                                                 // 'shutdown'
    | Back                                                     // a `Back` item
    | Submenu                                                  // a `Menu`

  /** The value of an item and the items below it. */
  datatype Tree = Tree(kind: Kind, name: string, visible: bool, options: seq<Tree>)

  class Item {
    const kind: Kind
    var name: string
    var visible: bool
    var options: seq<Item>
    ghost var model: Tree
    ghost var Repr: set<Item>

    /** The subtree is a tree (children own disjoint footprints) and `model` is its value. */
    ghost predicate Valid()
      reads this, Repr
      decreases Repr
    {
      && this in Repr
      && model.kind == kind && model.name == name && model.visible == visible
      && |model.options| == |options|
      && (!kind.Submenu? ==> options == [])
      && (forall i :: 0 <= i < |options| ==>
            && options[i] in Repr
            && options[i].Repr <= Repr
            && this !in options[i].Repr
            && options[i].Valid()
            && options[i].model == model.options[i])
      && (forall i, j :: 0 <= i < j < |options| ==> options[i].Repr !! options[j].Repr)
    }

    /** `MenuItem(type, name, attributes)`, `Menu(name)` or `Back(name)`: a visible item with no options. */
    constructor (kind: Kind, name: string)
      ensures Valid() && fresh(Repr) && Repr == {this}
      ensures model == Tree(kind, name, true, [])
    {
      this.kind := kind;
      this.name := name;
      this.visible := true;
      this.options := [];
      this.model := Tree(kind, name, true, []);
      this.Repr := {this};
    }

    /** `Menu.addOption`: appends an item to this menu's options. */
    method AddOption(child: Item)
      requires Valid() && child.Valid() && kind.Submenu?
      requires Repr !! child.Repr
      modifies this
      ensures Valid() && Repr == old(Repr) + child.Repr
      ensures model == old(model).(options := old(model).options + [child.model])
    {
      options := options + [child];
      model := model.(options := model.options + [child.model]);
      Repr := Repr + child.Repr;
    }
  }

  // ---------------------------------------------------------------------------
  // filterDrinks (bartender.py:163-179)

  /** The visibility `filterDrinks` gives a drink: matching (ingredient, pump) pairs equal the ingredient count. */
  predicate DrinkVisible(ingredients: Recipe, cfg: Config) {
    PresentCount(ingredients, cfg) == |ingredients|
  }

  function FilterItem(t: Tree, cfg: Config): Tree
    decreases t, 1
  {
    match t.kind
    case Drink(ingredients) => t.(visible := DrinkVisible(ingredients, cfg))
    case Submenu => FilterMenu(t, cfg)
    case _ => t
  }

  /** The subtree after `filterDrinks(menu)`: the options are filtered, the menu itself is not. */
  function FilterMenu(t: Tree, cfg: Config): Tree
    decreases t, 0
  {
    t.(options := seq(|t.options|, i requires 0 <= i < |t.options| => FilterItem(t.options[i], cfg)))
  }

  // ---------------------------------------------------------------------------
  // selectConfigurations (bartender.py:181-193)

  /** The configured `value` of pump `key` is `value`; an unknown key counts as not selected. */
  predicate Selected(key: string, value: string, cfg: Config) {
    Find(cfg, key).Some? && Find(cfg, key).value.value == value
  }

  /** `"%s %s" % (name, "*")` when selected, the plain name otherwise. */
  function StarredName(key: string, value: string, caption: string, cfg: Config): string {
    if Selected(key, value, cfg) then caption + " *" else caption
  }

  function SelectItem(t: Tree, cfg: Config): Tree
    decreases t, 1
  {
    match t.kind
    case PumpSelection(key, value, caption) => t.(name := StarredName(key, value, caption, cfg))
    case Submenu => SelectMenu(t, cfg)
    case _ => t
  }

  /** The subtree after `selectConfigurations(menu)`. */
  function SelectMenu(t: Tree, cfg: Config): Tree
    decreases t, 0
  {
    t.(options := seq(|t.options|, i requires 0 <= i < |t.options| => SelectItem(t.options[i], cfg)))
  }

  /** `prepareForRender`: filtering, then starring. */
  function Prepare(t: Tree, cfg: Config): Tree {
    SelectMenu(FilterMenu(t, cfg), cfg)
  }

  /**
   * Every pump-selection item of the tree names a pump the configuration has:
   * `selectConfigurations` reads `pump_configuration[key]` and fails on any other.
   */
  ghost predicate KeysPresent(t: Tree, cfg: Config) {
    && (t.kind.PumpSelection? ==> HasKey(cfg, t.kind.key))
    && forall i :: 0 <= i < |t.options| ==> KeysPresent(t.options[i], cfg)
  }

  // ---------------------------------------------------------------------------
  // What the passes do, stated without them

  /** Every drink at any depth below `t` (through menus) has the visibility `filterDrinks` assigns. */
  ghost predicate DrinksShownIff(t: Tree, cfg: Config) {
    forall i :: 0 <= i < |t.options| ==>
      && (t.options[i].kind.Drink? ==>
            t.options[i].visible == DrinkVisible(t.options[i].kind.ingredients, cfg))
      && (t.options[i].kind.Submenu? ==> DrinksShownIff(t.options[i], cfg))
  }

  /** Every pump selection at any depth below `t` is starred exactly when its pump holds its value. */
  ghost predicate StarsMatch(t: Tree, cfg: Config) {
    forall i :: 0 <= i < |t.options| ==>
      && (t.options[i].kind.PumpSelection? ==>
            var k := t.options[i].kind;
            t.options[i].name == (if Selected(k.key, k.value, cfg) then k.caption + " *" else k.caption))
      && (t.options[i].kind.Submenu? ==> StarsMatch(t.options[i], cfg))
  }

  /** `t` with every drink below it hidden: what `filterDrinks` may not change. */
  function HideDrinks(t: Tree): Tree
    decreases t
  {
    t.(options := seq(|t.options|, i requires 0 <= i < |t.options| =>
      var c := t.options[i];
      if c.kind.Drink? then c.(visible := false)
      else if c.kind.Submenu? then HideDrinks(c)
      else c))
  }

  /** `t` with every pump selection below it renamed to "": what `selectConfigurations` may not change. */
  function BlankSelections(t: Tree): Tree
    decreases t
  {
    t.(options := seq(|t.options|, i requires 0 <= i < |t.options| =>
      var c := t.options[i];
      if c.kind.PumpSelection? then c.(name := "")
      else if c.kind.Submenu? then BlankSelections(c)
      else c))
  }

  /**
   * `filterDrinks` sets every drink's visibility, at any depth, to whether the
   * count of matching (ingredient, pump) pairs equals its ingredient count, and
   * changes nothing else: hiding the drinks before or after the pass gives the
   * same tree, so every other item keeps its `visible` and every name stays.
   */
  lemma {:induction false} FilterMenuSpec(t: Tree, cfg: Config)
    ensures DrinksShownIff(FilterMenu(t, cfg), cfg)
    ensures HideDrinks(FilterMenu(t, cfg)) == HideDrinks(t)
    decreases t
  {
    var f := FilterMenu(t, cfg);
    forall i | 0 <= i < |t.options|
      ensures t.options[i].kind.Submenu? ==> DrinksShownIff(f.options[i], cfg)
      ensures HideDrinks(f).options[i] == HideDrinks(t).options[i]
    {
      assert f.options[i] == FilterItem(t.options[i], cfg);
      if t.options[i].kind.Submenu? {
        FilterMenuSpec(t.options[i], cfg);
      }
    }
    assert HideDrinks(f).options == HideDrinks(t).options;
  }

  /**
   * `selectConfigurations` names every pump selection, at any depth, by its
   * attribute `name`, starred exactly when the pump `key` is configured with its
   * `value`; it changes nothing else.
   */
  lemma {:induction false} SelectMenuSpec(t: Tree, cfg: Config)
    ensures StarsMatch(SelectMenu(t, cfg), cfg)
    ensures BlankSelections(SelectMenu(t, cfg)) == BlankSelections(t)
    decreases t
  {
    var s := SelectMenu(t, cfg);
    forall i | 0 <= i < |t.options|
      ensures t.options[i].kind.Submenu? ==> StarsMatch(s.options[i], cfg)
      ensures BlankSelections(s).options[i] == BlankSelections(t).options[i]
    {
      assert s.options[i] == SelectItem(t.options[i], cfg);
      if t.options[i].kind.Submenu? {
        SelectMenuSpec(t.options[i], cfg);
      }
    }
    assert BlankSelections(s).options == BlankSelections(t).options;
  }

  lemma {:induction false} FilterItemIdempotent(t: Tree, cfg: Config)
    ensures FilterItem(FilterItem(t, cfg), cfg) == FilterItem(t, cfg)
    decreases t, 1
  {
    if t.kind.Submenu? {
      FilterMenuIdempotent(t, cfg);
    }
  }

  /** Filtering twice is filtering once. */
  lemma {:induction false} FilterMenuIdempotent(t: Tree, cfg: Config)
    ensures FilterMenu(FilterMenu(t, cfg), cfg) == FilterMenu(t, cfg)
    decreases t, 0
  {
    var f := FilterMenu(t, cfg);
    forall i | 0 <= i < |t.options| ensures FilterItem(f.options[i], cfg) == f.options[i] {
      FilterItemIdempotent(t.options[i], cfg);
    }
    assert FilterMenu(f, cfg).options == f.options;
  }

  lemma {:induction false} SelectItemIdempotent(t: Tree, cfg: Config)
    ensures SelectItem(SelectItem(t, cfg), cfg) == SelectItem(t, cfg)
    decreases t, 1
  {
    if t.kind.Submenu? {
      SelectMenuIdempotent(t, cfg);
    }
  }

  /** Starring twice is starring once: a name is rebuilt from the attributes, never extended. */
  lemma {:induction false} SelectMenuIdempotent(t: Tree, cfg: Config)
    ensures SelectMenu(SelectMenu(t, cfg), cfg) == SelectMenu(t, cfg)
    decreases t, 0
  {
    var s := SelectMenu(t, cfg);
    forall i | 0 <= i < |t.options| ensures SelectItem(s.options[i], cfg) == s.options[i] {
      SelectItemIdempotent(t.options[i], cfg);
    }
    assert SelectMenu(s, cfg).options == s.options;
  }

  lemma {:induction false} ItemPassesCommute(t: Tree, cfg: Config)
    ensures FilterItem(SelectItem(t, cfg), cfg) == SelectItem(FilterItem(t, cfg), cfg)
    decreases t, 1
  {
    if t.kind.Submenu? {
      MenuPassesCommute(t, cfg);
    }
  }

  /** The two passes touch different fields of different kinds of items, so their order does not matter. */
  lemma {:induction false} MenuPassesCommute(t: Tree, cfg: Config)
    ensures FilterMenu(SelectMenu(t, cfg), cfg) == SelectMenu(FilterMenu(t, cfg), cfg)
    decreases t, 0
  {
    forall i | 0 <= i < |t.options|
      ensures FilterItem(SelectItem(t.options[i], cfg), cfg) == SelectItem(FilterItem(t.options[i], cfg), cfg)
    {
      ItemPassesCommute(t.options[i], cfg);
    }
    assert FilterMenu(SelectMenu(t, cfg), cfg).options == SelectMenu(FilterMenu(t, cfg), cfg).options;
  }

  /** Rendering twice in a row with the same configuration shows the same tree as rendering once. */
  lemma PrepareIdempotent(t: Tree, cfg: Config)
    ensures Prepare(Prepare(t, cfg), cfg) == Prepare(t, cfg)
  {
    var f := FilterMenu(t, cfg);
    MenuPassesCommute(SelectMenu(f, cfg), cfg);
    MenuPassesCommute(f, cfg);
    FilterMenuIdempotent(t, cfg);
    SelectMenuIdempotent(f, cfg);
    SelectMenuIdempotent(FilterMenu(f, cfg), cfg);
  }

  /**
   * Rendering keeps the menu's own item and its number of options, and renders
   * each option on its own: a submenu as a menu of its own, a leaf by the two
   * per-item rules.
   */
  lemma PrepareOption(t: Tree, cfg: Config, i: nat)
    requires i < |t.options|
    ensures var r := Prepare(t, cfg);
      && r.kind == t.kind && r.name == t.name && r.visible == t.visible
      && |r.options| == |t.options|
      && r.options[i] == if t.options[i].kind.Submenu? then Prepare(t.options[i], cfg)
                         else SelectItem(FilterItem(t.options[i], cfg), cfg)
  {
    var f := FilterMenu(t, cfg);
    assert f.options[i] == FilterItem(t.options[i], cfg);
    assert Prepare(t, cfg).options[i] == SelectItem(f.options[i], cfg);
  }

  /** Filtering keeps every item's kind, so the pumps the tree names stay the same. */
  lemma {:induction false} FilterKeepsKeys(t: Tree, cfg: Config)
    requires KeysPresent(t, cfg)
    ensures KeysPresent(FilterMenu(t, cfg), cfg)
    decreases t
  {
    var f := FilterMenu(t, cfg);
    forall i | 0 <= i < |t.options| ensures KeysPresent(f.options[i], cfg) {
      var c := t.options[i];
      assert f.options[i] == FilterItem(c, cfg);
      assert KeysPresent(c, cfg);
      if c.kind.Submenu? {
        FilterKeepsKeys(c, cfg);
      } else {
        assert f.options[i].kind == c.kind && f.options[i].options == c.options;
      }
    }
  }

  /** Starring keeps every item's kind as well, whatever configuration it stars by. */
  lemma {:induction false} SelectKeepsKeys(t: Tree, cfg: Config, now: Config)
    requires KeysPresent(t, cfg)
    ensures KeysPresent(SelectMenu(t, now), cfg)
    decreases t
  {
    var s := SelectMenu(t, now);
    forall i | 0 <= i < |t.options| ensures KeysPresent(s.options[i], cfg) {
      var c := t.options[i];
      assert s.options[i] == SelectItem(c, now);
      assert KeysPresent(c, cfg);
      if c.kind.Submenu? {
        SelectKeepsKeys(c, cfg, now);
      } else {
        assert s.options[i].kind == c.kind && s.options[i].options == c.options;
      }
    }
  }

  /** A rendered tree still names only configured pumps, so it can be rendered again. */
  lemma PrepareKeepsKeys(t: Tree, cfg: Config)
    requires KeysPresent(t, cfg)
    ensures KeysPresent(Prepare(t, cfg), cfg)
  {
    FilterKeepsKeys(t, cfg);
    SelectKeepsKeys(FilterMenu(t, cfg), cfg, cfg);
  }

  /** The tree names only pumps `cfg` has exactly when it names only pumps `cfg2` has, if both have the same keys. */
  lemma {:induction false} KeysPresentSameKeys(t: Tree, cfg: Config, cfg2: Config)
    requires forall k :: HasKey(cfg, k) <==> HasKey(cfg2, k)
    requires KeysPresent(t, cfg)
    ensures KeysPresent(t, cfg2)
    decreases t
  {
    forall i | 0 <= i < |t.options| ensures KeysPresent(t.options[i], cfg2) {
      KeysPresentSameKeys(t.options[i], cfg, cfg2);
    }
  }

  // ---------------------------------------------------------------------------
  // The passes on the objects

  /** The nested loops of `filterDrinks` that count matching (ingredient, pump) pairs. */
  method CountPresent(ingredients: Recipe, cfg: Config) returns (presentIng: nat)
    ensures presentIng == PresentCount(ingredients, cfg)
  {
    presentIng := 0;
    for i := 0 to |ingredients|
      invariant presentIng == PresentCount(ingredients[..i], cfg)
    {
      var ing := ingredients[i].ingredient;
      for j := 0 to |cfg|
        invariant presentIng == PresentCount(ingredients[..i], cfg) + PumpCount(ing, cfg[..j])
      {
        if ing == cfg[j].value {
          presentIng := presentIng + 1;
        }
        assert cfg[..j + 1][..j] == cfg[..j];
      }
      assert cfg[..|cfg|] == cfg;
      assert ingredients[..i + 1][..i] == ingredients[..i];
    }
    assert ingredients[..|ingredients|] == ingredients;
  }

  /** One iteration of the loop of `filterDrinks`: a drink's visibility is recomputed, a menu is filtered. */
  method FilterOption(item: Item, cfg: Config)
    requires item.Valid()
    modifies item.Repr
    ensures item.Valid() && item.Repr == old(item.Repr)
    ensures item.model == FilterItem(old(item.model), cfg)
    decreases item.Repr, 1
  {
    if item.kind.Drink? {
      item.visible := false;
      var ingredients := item.kind.ingredients;
      var presentIng := CountPresent(ingredients, cfg);
      if presentIng == |ingredients| {
        item.visible := true;
      }
      item.model := item.model.(visible := item.visible);
    } else if item.kind.Submenu? {
      FilterDrinks(item, cfg);
    }
  }

  /** `filterDrinks(menu)` on the objects, with the configuration `cfg`. */
  method FilterDrinks(menu: Item, cfg: Config)
    requires menu.Valid()
    modifies menu.Repr
    ensures menu.Valid() && menu.Repr == old(menu.Repr)
    ensures menu.model == FilterMenu(old(menu.model), cfg)
    decreases menu.Repr, 0
  {
    ghost var m0 := menu.model;
    ghost var R := menu.Repr;
    var opts := menu.options;
    ghost var target := FilterMenu(m0, cfg);
    for i := 0 to |opts|
      invariant menu.options == opts && menu.Repr == R && menu.model == m0
      invariant menu.name == m0.name && menu.visible == m0.visible && menu in R
      invariant |opts| == |m0.options| == |target.options|
      invariant !menu.kind.Submenu? ==> opts == []
      invariant forall k :: 0 <= k < |opts| ==>
        && opts[k].Repr <= R && menu !in opts[k].Repr && opts[k].Valid()
        && opts[k].model == if k < i then target.options[k] else m0.options[k]
      invariant forall k, l :: 0 <= k < l < |opts| ==> opts[k].Repr !! opts[l].Repr
    {
      assert target.options[i] == FilterItem(m0.options[i], cfg);
      FilterOption(opts[i], cfg);
    }
    menu.model := target;
  }

  /** One iteration of the loop of `selectConfigurations`: a pump selection is renamed, a menu is starred. */
  method SelectOption(item: Item, cfg: Config)
    requires item.Valid() && KeysPresent(item.model, cfg)
    modifies item.Repr
    ensures item.Valid() && item.Repr == old(item.Repr)
    ensures item.model == SelectItem(old(item.model), cfg)
    decreases item.Repr, 1
  {
    if item.kind.PumpSelection? {
      var key := item.kind.key;
      var pump := Lookup(cfg, key);
      if pump.value == item.kind.value {
        item.name := item.kind.caption + " *";
      } else {
        item.name := item.kind.caption;
      }
      item.model := item.model.(name := item.name);
    } else if item.kind.Submenu? {
      SelectConfigurations(item, cfg);
    }
  }

  /** `selectConfigurations(menu)` on the objects, with the configuration `cfg`. */
  method SelectConfigurations(menu: Item, cfg: Config)
    requires menu.Valid() && KeysPresent(menu.model, cfg)
    modifies menu.Repr
    ensures menu.Valid() && menu.Repr == old(menu.Repr)
    ensures menu.model == SelectMenu(old(menu.model), cfg)
    decreases menu.Repr, 0
  {
    ghost var m0 := menu.model;
    ghost var R := menu.Repr;
    var opts := menu.options;
    ghost var target := SelectMenu(m0, cfg);
    for i := 0 to |opts|
      invariant menu.options == opts && menu.Repr == R && menu.model == m0
      invariant menu.name == m0.name && menu.visible == m0.visible && menu in R
      invariant |opts| == |m0.options| == |target.options|
      invariant !menu.kind.Submenu? ==> opts == []
      invariant forall k :: 0 <= k < |opts| ==>
        && opts[k].Repr <= R && menu !in opts[k].Repr && opts[k].Valid()
        && opts[k].model == if k < i then target.options[k] else m0.options[k]
      invariant forall k, l :: 0 <= k < l < |opts| ==> opts[k].Repr !! opts[l].Repr
    {
      assert target.options[i] == SelectItem(m0.options[i], cfg);
      assert KeysPresent(m0.options[i], cfg);
      SelectOption(opts[i], cfg);
    }
    menu.model := target;
  }
}
