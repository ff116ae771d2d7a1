/**
 * The settings store of `SettingsProvider` (src/context/SettingsContext.js):
 * defaults read from storage, the Ctrl/Meta scale shortcuts, single-key
 * updates, form-input coercion and theme resolution. Persistence and the DOM
 * are not modelled; storage reads and the colour-scheme preference are
 * parameters.
 */
module Settings {
  /** A JavaScript number: a real value or NaN. */
  datatype Num = Num(x: real) | NaN

  /** The values a setting can hold (what `JSON.parse` of a stored item yields, bar objects and arrays). */
  datatype JsValue = JNull | JBool(b: bool) | JNumber(n: Num) | JString(s: string)

  /** Conversion of a string by `Number(...)`; string-to-number parsing is a parameter. */
  type NumberParser = string -> Num

  /** `Number(v)`. */
  function ToNumber(v: JsValue, parse: NumberParser): Num {
    match v
    case JNull => Num(0.0)
    case JBool(b) => Num(if b then 1.0 else 0.0)
    case JNumber(n) => n
    case JString(s) => parse(s)
  }

  /** JavaScript truthiness. */
  predicate Truthy(v: JsValue) {
    match v
    case JNull => false
    case JBool(b) => b
    case JNumber(n) => n.Num? && n.x != 0.0
    case JString(s) => s != ""
  }

  /** `a || b`. */
  function Or(a: JsValue, b: JsValue): (r: JsValue)
    ensures Truthy(a) ==> r == a
    ensures !Truthy(a) ==> r == b
  {
    if Truthy(a) then a else b
  }

  /** The settings object, key by key. */
  type SettingsMap = map<string, JsValue>

  /** The seven keys every settings object starts with. */
  const SettingKeys: set<string> :=
    {"scaleFactor", "isShowDeleted", "color", "isReversed", "exportFormat", "exportQuality", "theme"}

  /** Smallest and largest scale the shortcuts reach. */
  const MinScale: real := 1.0
  const MaxScale: real := 4.0

  /**
   * The initial settings. `stored(key)` is what `getItem` returns: the parsed
   * item, or `JNull` when it is missing or unreadable.
   */
  function InitialSettings(stored: string -> JsValue, parse: NumberParser): (s: SettingsMap)
    ensures s.Keys == SettingKeys
  {
    var reversed := stored("isReversed");
    map[
      "scaleFactor" := Or(stored("scaleFactor"), JNumber(Num(2.0))),
      "isShowDeleted" := Or(stored("isShowDeleted"), JBool(false)),
      "color" := Or(stored("color"), JString("green")),
      "isReversed" := if reversed == JNull then JBool(false) else reversed,
      "exportFormat" := Or(stored("exportFormat"), JString("png")),
      "exportQuality" := Or(JNumber(ToNumber(stored("exportQuality"), parse)), JNumber(Num(0.9))),
      "theme" := Or(stored("theme"), JString("system"))
    ]
  }

  /** With nothing stored every setting takes its default. */
  lemma InitialSettingsDefaults(parse: NumberParser)
    ensures InitialSettings(_ => JNull, parse) == map[
              "scaleFactor" := JNumber(Num(2.0)), "isShowDeleted" := JBool(false),
              "color" := JString("green"), "isReversed" := JBool(false),
              "exportFormat" := JString("png"), "exportQuality" := JNumber(Num(0.9)),
              "theme" := JString("system")]
  {
  }

  /**
   * The defaulting rules for any storage: isReversed keeps every stored value
   * but null (so a stored `false` survives); each `||`-defaulted setting keeps
   * its stored value exactly when it is truthy (so a stored `false` or 0 is
   * replaced); exportQuality applies that rule to `Number(stored)`.
   */
  lemma InitialSettingsFromStorage(stored: string -> JsValue, parse: NumberParser)
    ensures var s := InitialSettings(stored, parse);
            var q := JNumber(ToNumber(stored("exportQuality"), parse));
            && (stored("isReversed") != JNull ==> s["isReversed"] == stored("isReversed"))
            && (stored("isReversed") == JNull ==> s["isReversed"] == JBool(false))
            && s["scaleFactor"] == (if Truthy(stored("scaleFactor")) then stored("scaleFactor") else JNumber(Num(2.0)))
            && s["isShowDeleted"] == (if Truthy(stored("isShowDeleted")) then stored("isShowDeleted") else JBool(false))
            && s["color"] == (if Truthy(stored("color")) then stored("color") else JString("green"))
            && s["exportFormat"] == (if Truthy(stored("exportFormat")) then stored("exportFormat") else JString("png"))
            && s["exportQuality"] == (if Truthy(q) then q else JNumber(Num(0.9)))
            && s["theme"] == (if Truthy(stored("theme")) then stored("theme") else JString("system"))
  {
  }

  /** `updateSetting(name, value)`. */
  function UpdateSetting(s: SettingsMap, name: string, value: JsValue): (t: SettingsMap)
    ensures t.Keys == s.Keys + {name}
    ensures t[name] == value
    ensures forall k :: k in s && k != name ==> t[k] == s[k]
  {
    s[name := value]
  }

  /** `Math.min` and `Math.max` against a bound, with NaN propagating. */
  function MinNum(a: Num, b: real): Num {
    if a.NaN? then NaN else Num(if a.x <= b then a.x else b)
  }
  function MaxNum(a: Num, b: real): Num {
    if a.NaN? then NaN else Num(if a.x >= b then a.x else b)
  }

  /** `v + 1`: string concatenation for a string, numeric addition otherwise. */
  function PlusOne(v: JsValue, parse: NumberParser): JsValue {
    match v
    case JString(s) => JString(s + "1")
    case _ =>
      var n := ToNumber(v, parse);
      JNumber(if n.NaN? then NaN else Num(n.x + 1.0))
  }

  /** `v - 1`: always numeric. */
  function MinusOne(v: JsValue, parse: NumberParser): Num {
    var n := ToNumber(v, parse);
    if n.NaN? then NaN else Num(n.x - 1.0)
  }

  /** A key press with its modifier flags. */
  datatype KeyEvent = KeyEvent(key: string, ctrlKey: bool, metaKey: bool)

  /** The scale shortcuts: Ctrl/Meta with '+' or '=' grows, with '-' shrinks, else nothing. */
  function HandleKeyDown(s: SettingsMap, e: KeyEvent, parse: NumberParser): (t: SettingsMap)
    requires "scaleFactor" in s
    ensures t.Keys == s.Keys
    ensures forall k :: k in s && k != "scaleFactor" ==> t[k] == s[k]
    ensures !(e.ctrlKey || e.metaKey) || (e.key != "+" && e.key != "=" && e.key != "-") ==> t == s
    ensures t != s ==> t["scaleFactor"].JNumber?
  {
    var isModKey := e.ctrlKey || e.metaKey;
    if (e.key == "+" || e.key == "=") && isModKey then
      UpdateSetting(s, "scaleFactor", JNumber(MinNum(ToNumber(PlusOne(s["scaleFactor"], parse), parse), MaxScale)))
    else if e.key == "-" && isModKey then
      UpdateSetting(s, "scaleFactor", JNumber(MaxNum(MinusOne(s["scaleFactor"], parse), MinScale)))
    else s
  }

  /** The scale is a number in 1..4. */
  predicate ScaleInRange(s: SettingsMap) {
    "scaleFactor" in s && s["scaleFactor"].JNumber? && s["scaleFactor"].n.Num?
    && MinScale <= s["scaleFactor"].n.x <= MaxScale
  }

  /**
   * From a numeric scale `x`, '+'/'=' with a modifier sets min(x+1, 4), '-'
   * sets max(x-1, 1), anything else changes nothing; only the scale changes,
   * and a scale in 1..4 stays in 1..4.
   */
  lemma HandleKeyDownScale(s: SettingsMap, e: KeyEvent, parse: NumberParser)
    requires "scaleFactor" in s && s["scaleFactor"].JNumber? && s["scaleFactor"].n.Num?
    ensures var x := s["scaleFactor"].n.x;
            var t := HandleKeyDown(s, e, parse);
            var isModKey := e.ctrlKey || e.metaKey;
            && t.Keys == s.Keys
            && (forall k :: k in s && k != "scaleFactor" ==> t[k] == s[k])
            && ((e.key == "+" || e.key == "=") && isModKey ==>
                  t["scaleFactor"] == JNumber(Num(if x + 1.0 <= MaxScale then x + 1.0 else MaxScale)))
            && (e.key == "-" && isModKey ==>
                  t["scaleFactor"] == JNumber(Num(if x - 1.0 >= MinScale then x - 1.0 else MinScale)))
            && (!isModKey || (e.key != "+" && e.key != "=" && e.key != "-") ==> t == s)
            && (ScaleInRange(s) ==> ScaleInRange(t))
  {
  }

  /** The fields of the input element behind a change event. */
  datatype InputTarget = InputTarget(name: string, value: string, inputType: string, checked: bool)

  /**
   * `handleSettingChange`: a checkbox stores its checked state, the scale and
   * the export quality store `Number(value)`, every other input its raw value.
   */
  function HandleSettingChange(s: SettingsMap, target: InputTarget, parse: NumberParser): (t: SettingsMap)
    ensures target.inputType == "checkbox" ==> t == UpdateSetting(s, target.name, JBool(target.checked))
    ensures target.inputType != "checkbox" && (target.name == "scaleFactor" || target.name == "exportQuality") ==>
              t == UpdateSetting(s, target.name, JNumber(parse(target.value)))
    ensures target.inputType != "checkbox" && target.name != "scaleFactor" && target.name != "exportQuality" ==>
              t == UpdateSetting(s, target.name, JString(target.value))
  {
    var newValue :=
      if target.inputType == "checkbox" then JBool(target.checked)
      else if target.name == "scaleFactor" || target.name == "exportQuality" then JNumber(ToNumber(JString(target.value), parse))
      else JString(target.value);
    UpdateSetting(s, target.name, newValue)
  }

  /** A settings object built from the defaults and any updates still has every default key. */
  lemma UpdatesKeepSettingKeys(s: SettingsMap, target: InputTarget, e: KeyEvent, parse: NumberParser)
    requires SettingKeys <= s.Keys
    ensures SettingKeys <= HandleSettingChange(s, target, parse).Keys
    ensures SettingKeys <= HandleKeyDown(s, e, parse).Keys
  {
  }

  /** `data-theme`: "system" follows the colour-scheme preference; any other theme is used as is. */
  function ResolveTheme(theme: JsValue, prefersDark: bool): (r: JsValue)
    ensures theme == JString("system") ==> r == (if prefersDark then JString("dark") else JString("light"))
    ensures theme != JString("system") ==> r == theme
    ensures r != JString("system")
  {
    if theme == JString("system") then (if prefersDark then JString("dark") else JString("light"))
    else theme
  }

  /** A resolved theme resolves to itself, whatever the preference is by then. */
  lemma ResolveThemeIdempotent(theme: JsValue, prefersDark: bool, laterPrefersDark: bool)
    ensures ResolveTheme(ResolveTheme(theme, prefersDark), laterPrefersDark) == ResolveTheme(theme, prefersDark)
  {
  }
}
