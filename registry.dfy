/**
 * The pump configuration (`pump_config.json`, held in `Bartender.pump_configuration`)
 * and the recipes checked against it.
 *
 * The configuration is a dictionary from a pump key to `{name, value, pin}`; it is
 * modelled as the sequence of its entries in the dictionary's iteration order, each
 * entry carrying its own key. Recipes (`ingredients` dictionaries) are sequences of
 * (ingredient, volume) portions, again in iteration order.
 */
module Registry {
  import opened Results

  /** One pump: its dictionary key, its display name, the ingredient it holds and its GPIO pin. */
  datatype Pump = Pump(key: string, name: string, value: string, pin: int)

  type Config = seq<Pump>

  /** One `ingredient: volume` entry of a recipe. */
  datatype Portion = Portion(ingredient: string, volume: real)

  type Recipe = seq<Portion>

  /** A dictionary never holds one key twice. */
  predicate KeysUnique(cfg: Config) {
    forall i, j :: 0 <= i < j < |cfg| ==> cfg[i].key != cfg[j].key
  }

  function Keys(cfg: Config): seq<string> {
    seq(|cfg|, i requires 0 <= i < |cfg| => cfg[i].key)
  }

  function PumpPins(cfg: Config): seq<int> {
    seq(|cfg|, i requires 0 <= i < |cfg| => cfg[i].pin)
  }

  predicate HasKey(cfg: Config, key: string) {
    exists i :: 0 <= i < |cfg| && cfg[i].key == key
  }

  /**
   * The entry stored under `key`, if any: an option-valued stand-in for
   * `pump_configuration[key]`, whose missing-key case raises KeyError.
   */
  function Find(cfg: Config, key: string): (r: Option<Pump>)
    ensures r.Some? <==> HasKey(cfg, key)
    ensures r.Some? ==> r.value in cfg && r.value.key == key
    ensures KeysUnique(cfg) ==>
      forall i :: 0 <= i < |cfg| && cfg[i].key == key ==> r == Some(cfg[i])
  {
    if cfg == [] then None
    else if cfg[0].key == key then Some(cfg[0])
    else
      assert forall i :: 1 <= i < |cfg| ==> cfg[i] == cfg[1..][i - 1];
      Find(cfg[1..], key)
  }

  /** `pump_configuration[key]`, for a key the configuration holds. */
  function Lookup(cfg: Config, key: string): (p: Pump)
    requires HasKey(cfg, key)
    ensures p in cfg && p.key == key
  {
    Find(cfg, key).value
  }

  /** `pump_configuration[key]["value"] = value`. */
  function SetValue(cfg: Config, key: string, value: string): Config {
    seq(|cfg|, i requires 0 <= i < |cfg| =>
      if cfg[i].key == key then cfg[i].(value := value) else cfg[i])
  }

  /** Assigning a value keeps every pump's key, name and pin, so the key set too. */
  lemma SetValueKeepsKeys(cfg: Config, key: string, value: string)
    ensures |SetValue(cfg, key, value)| == |cfg|
    ensures Keys(SetValue(cfg, key, value)) == Keys(cfg)
    ensures forall i :: 0 <= i < |cfg| ==>
      SetValue(cfg, key, value)[i] == cfg[i].(value := SetValue(cfg, key, value)[i].value)
    ensures forall k :: HasKey(SetValue(cfg, key, value), k) <==> HasKey(cfg, k)
  {
    var r := SetValue(cfg, key, value);
    assert Keys(r) == Keys(cfg);
    forall k ensures HasKey(r, k) <==> HasKey(cfg, k) {
      if HasKey(cfg, k) {
        var i :| 0 <= i < |cfg| && cfg[i].key == k;
        assert r[i].key == k;
      }
    }
  }

  /** Assigning a value changes the chosen pump's entry and looks every other key up as before. */
  lemma SetValueFinds(cfg: Config, key: string, value: string)
    requires KeysUnique(cfg)
    ensures HasKey(cfg, key) ==>
      Find(SetValue(cfg, key, value), key) == Some(Find(cfg, key).value.(value := value))
    ensures forall k :: k != key ==> Find(SetValue(cfg, key, value), k) == Find(cfg, k)
  {
    var r := SetValue(cfg, key, value);
    SetValueKeepsKeys(cfg, key, value);
    assert KeysUnique(r) by {
      forall i, j | 0 <= i < j < |r| ensures r[i].key != r[j].key {
        assert r[i].key == cfg[i].key && r[j].key == cfg[j].key;
      }
    }
    if HasKey(cfg, key) {
      var i :| 0 <= i < |cfg| && cfg[i].key == key;
      assert r[i].key == key;
    }
    forall k | k != key ensures Find(r, k) == Find(cfg, k) {
      if HasKey(cfg, k) {
        var i :| 0 <= i < |cfg| && cfg[i].key == k;
        assert r[i] == cfg[i];
      }
    }
  }

  /**
   * Assigning an ingredient to a pump changes that pump's `value` and nothing
   * else: the keys, names and pins of every pump stay, and every other key is
   * looked up as before.
   */
  lemma SetValueChangesOnlyValue(cfg: Config, key: string, value: string)
    requires KeysUnique(cfg)
    ensures KeysUnique(SetValue(cfg, key, value))
    ensures Keys(SetValue(cfg, key, value)) == Keys(cfg)
    ensures forall i :: 0 <= i < |cfg| ==>
      && SetValue(cfg, key, value)[i].key == cfg[i].key
      && SetValue(cfg, key, value)[i].name == cfg[i].name
      && SetValue(cfg, key, value)[i].pin == cfg[i].pin
    ensures forall k :: HasKey(SetValue(cfg, key, value), k) <==> HasKey(cfg, k)
    ensures HasKey(cfg, key) ==>
      Find(SetValue(cfg, key, value), key) == Some(Find(cfg, key).value.(value := value))
    ensures forall k :: k != key ==> Find(SetValue(cfg, key, value), k) == Find(cfg, k)
  {
    var r := SetValue(cfg, key, value);
    SetValueKeepsKeys(cfg, key, value);
    forall i, j | 0 <= i < j < |r| ensures r[i].key != r[j].key {
      assert r[i].key == cfg[i].key && r[j].key == cfg[j].key;
    }
    SetValueFinds(cfg, key, value);
  }

  // ---------------------------------------------------------------------------
  // Which pumps hold an ingredient (the counting loop of `filterDrinks`)

  /** The number of pumps whose `value` is `ingredient`. */
  function PumpCount(ingredient: string, cfg: Config): nat {
    if cfg == [] then 0
    else PumpCount(ingredient, cfg[..|cfg| - 1]) + (if cfg[|cfg| - 1].value == ingredient then 1 else 0)
  }

  /** `presentIng` of `filterDrinks`: matching (ingredient, pump) pairs, summed over the recipe. */
  function PresentCount(recipe: Recipe, cfg: Config): nat {
    if recipe == [] then 0
    else PresentCount(recipe[..|recipe| - 1], cfg) + PumpCount(recipe[|recipe| - 1].ingredient, cfg)
  }

  predicate Assigned(ingredient: string, cfg: Config) {
    exists j :: 0 <= j < |cfg| && cfg[j].value == ingredient
  }

  predicate AtMostOnePump(ingredient: string, cfg: Config) {
    forall i, j :: 0 <= i < j < |cfg| && cfg[i].value == ingredient ==> cfg[j].value != ingredient
  }

  /** A pump count is zero exactly when no pump holds the ingredient, and at most one under `AtMostOnePump`. */
  lemma {:induction false} PumpCountMeaning(ingredient: string, cfg: Config)
    ensures PumpCount(ingredient, cfg) > 0 <==> Assigned(ingredient, cfg)
    ensures AtMostOnePump(ingredient, cfg) ==> PumpCount(ingredient, cfg) <= 1
  {
    if cfg != [] {
      var init := cfg[..|cfg| - 1];
      PumpCountMeaning(ingredient, init);
      assert forall j :: 0 <= j < |init| ==> init[j] == cfg[j];
      if Assigned(ingredient, init) {
        var j :| 0 <= j < |init| && init[j].value == ingredient;
        assert cfg[j].value == ingredient;
      }
      if AtMostOnePump(ingredient, cfg) && Assigned(ingredient, init) {
        var j :| 0 <= j < |init| && init[j].value == ingredient;
        assert cfg[j].value == ingredient;
        assert cfg[|cfg| - 1].value != ingredient;
      }
    }
  }

  /**
   * When no ingredient of the recipe sits on two pumps, the count `filterDrinks`
   * compares with the number of ingredients reaches it exactly when every
   * ingredient is assigned to some pump; it never exceeds it.
   */
  lemma {:induction false} CoverageIff(recipe: Recipe, cfg: Config)
    requires forall i :: 0 <= i < |recipe| ==> AtMostOnePump(recipe[i].ingredient, cfg)
    ensures PresentCount(recipe, cfg) <= |recipe|
    ensures PresentCount(recipe, cfg) == |recipe| <==>
      forall i :: 0 <= i < |recipe| ==> Assigned(recipe[i].ingredient, cfg)
  {
    if recipe != [] {
      var init := recipe[..|recipe| - 1];
      var last := recipe[|recipe| - 1];
      assert forall i :: 0 <= i < |init| ==> init[i] == recipe[i];
      CoverageIff(init, cfg);
      PumpCountMeaning(last.ingredient, cfg);
      if forall i :: 0 <= i < |recipe| ==> Assigned(recipe[i].ingredient, cfg) {
        assert forall i :: 0 <= i < |init| ==> Assigned(init[i].ingredient, cfg);
      }
    }
  }

  /**
   * Without the hypothesis of `CoverageIff` the count misleads: with two pumps
   * both holding vodka, a vodka-and-gin drink reaches the count although no
   * pump holds gin, and a vodka-only drink overshoots it although it can be poured.
   */
  lemma DuplicatePumpMiscounts()
    ensures var cfg := [Pump("pump_1", "Pump 1", "vodka", 17), Pump("pump_2", "Pump 2", "vodka", 27)];
      && PresentCount([Portion("vodka", 50.0), Portion("gin", 50.0)], cfg) == 2
      && !Assigned("gin", cfg)
      && PresentCount([Portion("vodka", 50.0)], cfg) == 2
      && Assigned("vodka", cfg)
  {
    var cfg := [Pump("pump_1", "Pump 1", "vodka", 17), Pump("pump_2", "Pump 2", "vodka", 27)];
    assert cfg[..1] == [cfg[0]];
    assert cfg[..1][..0] == [];
    var r := [Portion("vodka", 50.0), Portion("gin", 50.0)];
    assert r[..1] == [r[0]];
    assert r[..1][..0] == [];
    assert PumpCount("vodka", cfg[..1]) == 1;
    assert PumpCount("vodka", cfg) == 2;
    assert PumpCount("gin", cfg[..1]) == 0;
    assert PumpCount("gin", cfg) == 0;
    assert PresentCount(r[..1], cfg) == 2;
  }

  // ---------------------------------------------------------------------------
  // `sorted(pump_configuration.keys())`

  /** Python's string order: code point by code point, a proper prefix first. */
  predicate StrLe(a: string, b: string) {
    |a| == 0 || (|b| > 0 && (a[0] < b[0] || (a[0] == b[0] && StrLe(a[1..], b[1..]))))
  }

  lemma {:induction false} StrLeTotal(a: string, b: string)
    ensures StrLe(a, b) || StrLe(b, a)
  {
    if |a| > 0 && |b| > 0 && a[0] == b[0] {
      StrLeTotal(a[1..], b[1..]);
    }
  }

  predicate StrSorted(s: seq<string>) {
    forall i :: 0 < i < |s| ==> StrLe(s[i - 1], s[i])
  }

  function InsertKey(k: string, s: seq<string>): seq<string> {
    if s == [] || StrLe(k, s[0]) then [k] + s
    else [s[0]] + InsertKey(k, s[1..])
  }

  function SortStrings(s: seq<string>): seq<string> {
    if s == [] then [] else InsertKey(s[0], SortStrings(s[1..]))
  }

  lemma {:induction false} InsertKeyElems(k: string, s: seq<string>)
    ensures multiset(InsertKey(k, s)) == multiset(s) + multiset{k}
    ensures InsertKey(k, s)[0] == k || (s != [] && InsertKey(k, s)[0] == s[0])
  {
    if s != [] && !StrLe(k, s[0]) {
      InsertKeyElems(k, s[1..]);
      assert s == [s[0]] + s[1..];
    }
  }

  lemma {:induction false} InsertKeySorted(k: string, s: seq<string>)
    requires StrSorted(s)
    ensures StrSorted(InsertKey(k, s))
    ensures multiset(InsertKey(k, s)) == multiset(s) + multiset{k}
  {
    InsertKeyElems(k, s);
    if s != [] && !StrLe(k, s[0]) {
      StrLeTotal(k, s[0]);
      var t := s[1..];
      assert StrSorted(t) by {
        forall i | 0 < i < |t| ensures StrLe(t[i - 1], t[i]) {
          assert t[i - 1] == s[i] && t[i] == s[i + 1];
        }
      }
      InsertKeySorted(k, t);
      InsertKeyElems(k, t);
      var r := InsertKey(k, t);
      var u := [s[0]] + r;
      assert InsertKey(k, s) == u;
      assert StrLe(s[0], r[0]);
      forall i | 0 < i < |u| ensures StrLe(u[i - 1], u[i]) {
        if i > 1 {
          assert u[i - 1] == r[i - 2] && u[i] == r[i - 1];
        }
      }
    }
  }

  lemma {:induction false} SortStringsSorted(s: seq<string>)
    ensures StrSorted(SortStrings(s))
    ensures multiset(SortStrings(s)) == multiset(s)
  {
    if s != [] {
      SortStringsSorted(s[1..]);
      InsertKeySorted(s[0], SortStrings(s[1..]));
      assert s == [s[0]] + s[1..];
    }
  }

  lemma KeysMembers(cfg: Config)
    ensures forall k :: k in Keys(cfg) <==> HasKey(cfg, k)
  {
    forall k | k in Keys(cfg) ensures HasKey(cfg, k) {
      var i :| 0 <= i < |cfg| && Keys(cfg)[i] == k;
      assert cfg[i].key == k;
    }
    forall k | HasKey(cfg, k) ensures k in Keys(cfg) {
      var i :| 0 <= i < |cfg| && cfg[i].key == k;
      assert Keys(cfg)[i] == k;
    }
  }

  /** The pump keys in ascending order, each exactly once. */
  function SortedKeys(cfg: Config): (ks: seq<string>)
    ensures StrSorted(ks)
    ensures multiset(ks) == multiset(Keys(cfg))
    ensures forall k :: k in ks <==> HasKey(cfg, k)
  {
    SortStringsSorted(Keys(cfg));
    var ks := SortStrings(Keys(cfg));
    assert forall k :: k in ks <==> k in multiset(Keys(cfg));
    KeysMembers(cfg);
    ks
  }
}
