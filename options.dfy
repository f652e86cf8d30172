/** Model of the settings page (pakkujs/page/options.ts): the helpers that
    validate user input and render the current settings, and the handlers
    that update the page's configuration object in place.

    Regular-expression compilation (`new RegExp`) is a parameter
    `compiles: string -> bool`; `parseInt(x, 10)` is represented by its
    outcome, `None` standing for NaN. */
module Options {
  import opened Common

  // ---------------------------------------------------------------------
  // regexp_wrap
  // ---------------------------------------------------------------------

  /** Anchors a forcelist pattern: `^.*` in front unless it already starts
      with `^`, then `.*$` behind unless it already ends with `$`. */
  function RegexpWrap(src: string): (r: string)
    ensures StartsWith(r, "^") && EndsWith(r, "$")
    // the second test, made on the already prefixed text, agrees with the
    // same test made on `src`: the source text is kept whole between an
    // optional prefix and an optional suffix
    ensures r == (if StartsWith(src, "^") then "" else "^.*") + src
                 + (if EndsWith(src, "$") then "" else ".*$")
    ensures StartsWith(src, "^") && EndsWith(src, "$") ==> r == src
  {
    var anchored := if StartsWith(src, "^") then src else "^.*" + src;
    assert EndsWith(anchored, "$") <==> EndsWith(src, "$") by {
      EndsWithChar(anchored, '$');
      EndsWithChar(src, '$');
    }
    if EndsWith(anchored, "$") then anchored else anchored + ".*$"
  }

  /** Wrapping an already wrapped pattern changes nothing. */
  lemma RegexpWrapIdempotent(src: string)
    ensures RegexpWrap(RegexpWrap(src)) == RegexpWrap(src)
  {
  }

  // ---------------------------------------------------------------------
  // safe_int
  // ---------------------------------------------------------------------

  /** A value satisfies each bound that is present (`null` means unbounded). */
  predicate WithinBounds(v: int, min: Option<int>, max: Option<int>) {
    (min.Some? ==> min.value <= v) && (max.Some? ==> v <= max.value)
  }

  /** safe_int: the parsed number when parsing succeeded and it lies within
      the bounds, otherwise `fallback` (the source also shows an alert). */
  function SafeInt(parsed: Option<int>, min: Option<int>, max: Option<int>, fallback: int): (r: int)
    ensures parsed.Some? && WithinBounds(parsed.value, min, max) ==> r == parsed.value
    ensures parsed.None? || !WithinBounds(parsed.value, min, max) ==> r == fallback
    ensures WithinBounds(r, min, max) || r == fallback
  {
    if parsed.None? || (min.Some? && parsed.value < min.value) || (max.Some? && parsed.value > max.value)
    then fallback
    else parsed.value
  }

  /** Validating a value that was already validated gives it back: saving a
      form whose number fields were not edited keeps every stored number,
      provided the fallback itself lies within the bounds. */
  lemma SafeIntStable(parsed: Option<int>, min: Option<int>, max: Option<int>, fallback: int)
    requires WithinBounds(fallback, min, max)
    ensures WithinBounds(SafeInt(parsed, min, max, fallback), min, max)
    ensures SafeInt(Some(SafeInt(parsed, min, max, fallback)), min, max, fallback)
            == SafeInt(parsed, min, max, fallback)
  {
  }

  // ---------------------------------------------------------------------
  // stringify and the image-button rule of loadconfig
  // ---------------------------------------------------------------------

  /** A configuration value as the page sees it; `Undefined` is what a key
      the configuration does not have yields. */
  datatype ConfigValue = Bool(b: bool) | Num(n: int) | Str(s: string) | Undefined

  /** stringify: booleans become `on`/`off`, everything else its string form. */
  function Stringify(v: ConfigValue): (s: string)
    ensures v.Bool? ==> s == (if v.b then "on" else "off")
    ensures v.Num? ==> CanonicalNumeral(s) && ReadDecimal(s) == Some(v.n)
    ensures v.Str? ==> s == v.s
    ensures v.Undefined? ==> s == "undefined"
  {
    match v
    case Bool(b) => if b then "on" else "off"
    case Num(n) => IntToString(n)
    case Str(s) => s
    case Undefined => "undefined"
  }

  /** Two numbers render alike only when they are equal, and a number never
      renders as a switch state. */
  lemma StringifyNumbersDistinct(m: int, n: int, b: bool)
    ensures Stringify(Num(m)) == Stringify(Num(n)) ==> m == n
    ensures Stringify(Num(n)) != Stringify(Bool(b))
  {
  }

  /** The rule that decides whether an image button is shown active: its
      `data-value` is compared with the stringified setting, and a leading
      `!` (removed before comparing) inverts the comparison. */
  function ButtonActive(value: string, target: string): (active: bool)
    ensures !StartsWith(value, "!") ==> (active <==> target == value)
    ensures StartsWith(value, "!") ==> (active <==> target != value[1..])
  {
    var negated := StartsWith(value, "!");
    var v := if negated then value[1..] else value;
    if negated then target != v else target == v
  }

  /** Exactly one `!` is stripped: `!v` is active exactly when `v` is not,
      as long as `v` itself carries no `!`. */
  lemma ButtonNegation(v: string, target: string)
    ensures ButtonActive("!" + v, target) <==> target != v
    ensures !StartsWith(v, "!") ==> (ButtonActive("!" + v, target) <==> !ButtonActive(v, target))
  {
    assert ("!" + v)[1..] == v;
  }

  /** A button whose `data-value` is a numeral JavaScript would write is
      active for a number setting exactly when the numeral denotes it. */
  lemma NumberButtonActive(value: string, n: int)
    requires CanonicalNumeral(value)
    ensures ButtonActive(value, Stringify(Num(n))) <==> ReadDecimal(value) == Some(n)
  {
    if ReadDecimal(value).Some? {
      CanonicalNumeralUnique(value, ReadDecimal(value).value);
    }
  }

  /** An element carrying `data-name` and `data-value`, as loadconfig sees it. */
  class ImgButton {
    const name: string
    const value: string
    var className: string

    constructor (name: string, value: string)
      ensures this.name == name && this.value == value && className == ""
    {
      this.name := name;
      this.value := value;
      className := "";
    }
  }

  /** The class loadconfig gives a button for the current configuration. */
  function ButtonClass(config: Config, button: ImgButton): (c: string)
    reads config
    ensures c == "img-active" || c == "img-inactive"
    ensures var setting := config.settings.Get(button.name);
            setting.Num? && CanonicalNumeral(button.value) ==>
              (c == "img-active" <==> ReadDecimal(button.value) == Some(setting.n))
    ensures var setting := config.settings.Get(button.name);
            setting.Bool? ==>
              (button.value == "on" ==> (c == "img-active" <==> setting.b))
              && (button.value == "!on" ==> (c == "img-active" <==> !setting.b))
    ensures var setting := config.settings.Get(button.name);
            setting.Bool? ==>
              (c == "img-active" <==> ButtonActive(button.value, if setting.b then "on" else "off"))
    ensures var setting := config.settings.Get(button.name);
            setting.Num? && StartsWith(button.value, "!") && CanonicalNumeral(button.value[1..]) ==>
              (c == "img-active" <==> ReadDecimal(button.value[1..]) != Some(setting.n))
    ensures var setting := config.settings.Get(button.name);
            setting.Str? ==> (c == "img-active" <==> ButtonActive(button.value, setting.s))
    ensures var setting := config.settings.Get(button.name);
            setting.Undefined? ==> (c == "img-active" <==> ButtonActive(button.value, "undefined"))
  {
    var setting := config.settings.Get(button.name);
    var active := ButtonActive(button.value, Stringify(setting));
    assert setting.Num? && CanonicalNumeral(button.value) ==>
             (active <==> ReadDecimal(button.value) == Some(setting.n)) by {
      if setting.Num? && CanonicalNumeral(button.value) {
        NumberButtonActive(button.value, setting.n);
      }
    }
    assert setting.Num? && StartsWith(button.value, "!") && CanonicalNumeral(button.value[1..]) ==>
             (active <==> ReadDecimal(button.value[1..]) != Some(setting.n)) by {
      if setting.Num? && StartsWith(button.value, "!") && CanonicalNumeral(button.value[1..]) {
        NumberButtonActive(button.value[1..], setting.n);
      }
    }
    assert button.value == "on" ==> button.value[..1] == ['o'] && !StartsWith(button.value, "!");
    assert button.value == "!on" ==> StartsWith(button.value, "!") && button.value[1..] == "on";
    if active then "img-active" else "img-inactive"
  }

  /** The final loop of loadconfig: every button gets exactly one of the two
      classes, the active one exactly when ButtonActive holds. */
  method RenderImgButtons(config: Config, buttons: seq<ImgButton>)
    modifies set b | b in buttons
    ensures forall b :: b in buttons ==> b.className == ButtonClass(config, b)
    ensures forall b :: b in buttons ==> (b.className == "img-active" || b.className == "img-inactive")
  {
    for i := 0 to |buttons|
      invariant forall j :: 0 <= j < i ==> buttons[j].className == ButtonClass(config, buttons[j])
    {
      var elem := buttons[i];
      var v := elem.value;
      var negated := false;
      if StartsWith(v, "!") {
        v := v[1..];
        negated := true;
      }
      var target := Stringify(config.settings.Get(elem.name));
      if (if negated then target != v else target == v) {
        elem.className := "img-active";
      } else {
        elem.className := "img-inactive";
      }
    }
  }

  // ---------------------------------------------------------------------
  // The configuration object and the handlers that change it
  // ---------------------------------------------------------------------

  /** The defaults `safe_int` falls back to (DEFAULT_CONFIG of the
      background configuration module, which is not part of this model). */
  datatype Defaults = Defaults(
    threshold: int, maxDist: int, maxCosine: int, markThreshold: int,
    shrinkThreshold: int, dropThreshold: int, representativePercent: int,
    scrollThreshold: int, combineThreads: int)

  /** What `update` reads from the page's controls: check boxes as booleans,
      selects as their value, number fields as the outcome of parseInt. */
  datatype Form = Form(
    showAdvanced: bool,
    threshold: Option<int>, maxDist: Option<int>, maxCosine: Option<int>,
    trimPinyin: bool, trimEnding: bool, trimSpace: bool, trimWidth: bool,
    crossMode: bool, ignoreType7: bool, ignoreType4: bool, ignorePool1: bool,
    danmuMark: string, markThreshold: Option<int>, danmuSubscript: bool, enlarge: bool,
    shrinkThreshold: Option<int>, dropThreshold: Option<int>, modeElevation: bool,
    representativePercent: Option<int>,
    tooltip: bool, tooltipKeybinding: bool, autoDisableDanmu: bool, autoDanmuList: bool,
    fluctlight: bool,
    breakUpdate: bool, takeoverAijudge: bool, scrollThreshold: Option<int>,
    popupBadge: string, combineThreads: Option<int>, readPlayerBlacklist: bool)

  /** The keys of the settings the page edits, by the kind of value they hold. */
  const NumberKeys: set<string> := {
    "THRESHOLD", "MAX_DIST", "MAX_COSINE", "MARK_THRESHOLD", "SHRINK_THRESHOLD",
    "DROP_THRESHOLD", "REPRESENTATIVE_PERCENT", "SCROLL_THRESHOLD", "COMBINE_THREADS"}
  const TextKeys: set<string> := {"DANMU_MARK", "POPUP_BADGE"}
  const SwitchKeys: set<string> := {
    "ADVANCED_USER", "TRIM_PINYIN", "TRIM_ENDING", "TRIM_SPACE", "TRIM_WIDTH",
    "CROSS_MODE", "PROC_TYPE7", "PROC_TYPE4", "PROC_POOL1", "DANMU_SUBSCRIPT",
    "ENLARGE", "MODE_ELEVATION", "TOOLTIP", "TOOLTIP_KEYBINDING", "AUTO_DISABLE_DANMU",
    "AUTO_DANMU_LIST", "FLUCTLIGHT", "BREAK_UPDATE", "TAKEOVER_AIJUDGE",
    "READ_PLAYER_BLACKLIST"}

  /** The scalar options of the configuration object, one per key the
      settings page edits. */
  datatype Settings = Settings(
    advancedUser: bool,
    threshold: int,
    maxDist: int,
    maxCosine: int,
    trimPinyin: bool,
    trimEnding: bool,
    trimSpace: bool,
    trimWidth: bool,
    crossMode: bool,
    procType7: bool,
    procType4: bool,
    procPool1: bool,
    danmuMark: string,
    markThreshold: int,
    danmuSubscript: bool,
    enlarge: bool,
    shrinkThreshold: int,
    dropThreshold: int,
    modeElevation: bool,
    representativePercent: int,
    tooltip: bool,
    tooltipKeybinding: bool,
    autoDisableDanmu: bool,
    autoDanmuList: bool,
    fluctlight: bool,
    breakUpdate: bool,
    takeoverAijudge: bool,
    scrollThreshold: int,
    popupBadge: string,
    combineThreads: int,
    readPlayerBlacklist: bool)
  {
    /** `config[name]`, looked up by the configuration key's own name;
        a key the page does not edit reads as `undefined`. */
    function Get(name: string): (v: ConfigValue)
      ensures v.Num? ==> name in NumberKeys
      ensures v.Bool? ==> name in SwitchKeys
      ensures v.Str? ==> name in TextKeys
      ensures v.Undefined? ==> name !in NumberKeys && name !in SwitchKeys && name !in TextKeys
    {
      match name
      case "ADVANCED_USER" => Bool(advancedUser)
      case "THRESHOLD" => Num(threshold)
      case "MAX_DIST" => Num(maxDist)
      case "MAX_COSINE" => Num(maxCosine)
      case "TRIM_PINYIN" => Bool(trimPinyin)
      case "TRIM_ENDING" => Bool(trimEnding)
      case "TRIM_SPACE" => Bool(trimSpace)
      case "TRIM_WIDTH" => Bool(trimWidth)
      case "CROSS_MODE" => Bool(crossMode)
      case "PROC_TYPE7" => Bool(procType7)
      case "PROC_TYPE4" => Bool(procType4)
      case "PROC_POOL1" => Bool(procPool1)
      case "DANMU_MARK" => Str(danmuMark)
      case "MARK_THRESHOLD" => Num(markThreshold)
      case "DANMU_SUBSCRIPT" => Bool(danmuSubscript)
      case "ENLARGE" => Bool(enlarge)
      case "SHRINK_THRESHOLD" => Num(shrinkThreshold)
      case "DROP_THRESHOLD" => Num(dropThreshold)
      case "MODE_ELEVATION" => Bool(modeElevation)
      case "REPRESENTATIVE_PERCENT" => Num(representativePercent)
      case "TOOLTIP" => Bool(tooltip)
      case "TOOLTIP_KEYBINDING" => Bool(tooltipKeybinding)
      case "AUTO_DISABLE_DANMU" => Bool(autoDisableDanmu)
      case "AUTO_DANMU_LIST" => Bool(autoDanmuList)
      case "FLUCTLIGHT" => Bool(fluctlight)
      case "BREAK_UPDATE" => Bool(breakUpdate)
      case "TAKEOVER_AIJUDGE" => Bool(takeoverAijudge)
      case "SCROLL_THRESHOLD" => Num(scrollThreshold)
      case "POPUP_BADGE" => Str(popupBadge)
      case "COMBINE_THREADS" => Num(combineThreads)
      case "READ_PLAYER_BLACKLIST" => Bool(readPlayerBlacklist)
      case _ => Undefined
    }

    /** Every number update writes lies in its declared range or equals its
        default. */
    predicate InRangeOrDefault(d: Defaults) {
      && (-1 <= threshold <= 180 || threshold == d.threshold)
      && (0 <= maxDist || maxDist == d.maxDist)
      && (0 <= maxCosine || maxCosine == d.maxCosine)
      && (1 <= markThreshold || markThreshold == d.markThreshold)
      && (0 <= shrinkThreshold || shrinkThreshold == d.shrinkThreshold)
      && (0 <= dropThreshold || dropThreshold == d.dropThreshold)
      && (0 <= representativePercent <= 100 || representativePercent == d.representativePercent)
      && (0 <= scrollThreshold || scrollThreshold == d.scrollThreshold)
      && (0 <= combineThreads || combineThreads == d.combineThreads)
    }

    /** Every number lies in the range update accepts. */
    predicate InRange() {
      && -1 <= threshold <= 180 && 0 <= maxDist && 0 <= maxCosine && 1 <= markThreshold
      && 0 <= shrinkThreshold && 0 <= dropThreshold && 0 <= representativePercent <= 100
      && 0 <= scrollThreshold && 0 <= combineThreads
    }
  }

  /** The settings update reads off the form: check boxes copied (the
      "ignore" boxes negated), selects copied, every number passed through
      safe_int with its own bounds. */
  function FromForm(form: Form, d: Defaults): (s: Settings)
    ensures s.InRangeOrDefault(d)
  {
    Settings(
      advancedUser := form.showAdvanced,
      threshold := SafeInt(form.threshold, Some(-1), Some(180), d.threshold),
      maxDist := SafeInt(form.maxDist, Some(0), None, d.maxDist),
      maxCosine := SafeInt(form.maxCosine, Some(0), None, d.maxCosine),
      trimPinyin := form.trimPinyin,
      trimEnding := form.trimEnding,
      trimSpace := form.trimSpace,
      trimWidth := form.trimWidth,
      crossMode := form.crossMode,
      procType7 := !form.ignoreType7,
      procType4 := !form.ignoreType4,
      procPool1 := !form.ignorePool1,
      danmuMark := form.danmuMark,
      markThreshold := SafeInt(form.markThreshold, Some(1), None, d.markThreshold),
      danmuSubscript := form.danmuSubscript,
      enlarge := form.enlarge,
      shrinkThreshold := SafeInt(form.shrinkThreshold, Some(0), None, d.shrinkThreshold),
      dropThreshold := SafeInt(form.dropThreshold, Some(0), None, d.dropThreshold),
      modeElevation := form.modeElevation,
      representativePercent := SafeInt(form.representativePercent, Some(0), Some(100), d.representativePercent),
      tooltip := form.tooltip,
      tooltipKeybinding := form.tooltipKeybinding,
      autoDisableDanmu := form.autoDisableDanmu,
      autoDanmuList := form.autoDanmuList,
      fluctlight := form.fluctlight,
      breakUpdate := form.breakUpdate,
      takeoverAijudge := form.takeoverAijudge,
      scrollThreshold := SafeInt(form.scrollThreshold, Some(0), None, d.scrollThreshold),
      popupBadge := form.popupBadge,
      combineThreads := SafeInt(form.combineThreads, Some(0), None, d.combineThreads),
      readPlayerBlacklist := form.readPlayerBlacklist
    )
  }

  /** What loadconfig puts into the controls for the given settings; a
      number written into a field reads back through parseInt as itself.
      Submitting the form exactly as it was filled changes nothing, as long
      as every number is within its range, whatever the defaults are. */
  function ToForm(s: Settings): (f: Form)
    ensures s.InRange() ==> forall d :: FromForm(f, d) == s
  {
    Form(
      showAdvanced := s.advancedUser,
      threshold := Some(s.threshold),
      maxDist := Some(s.maxDist),
      maxCosine := Some(s.maxCosine),
      trimPinyin := s.trimPinyin,
      trimEnding := s.trimEnding,
      trimSpace := s.trimSpace,
      trimWidth := s.trimWidth,
      crossMode := s.crossMode,
      ignoreType7 := !s.procType7,
      ignoreType4 := !s.procType4,
      ignorePool1 := !s.procPool1,
      danmuMark := s.danmuMark,
      markThreshold := Some(s.markThreshold),
      danmuSubscript := s.danmuSubscript,
      enlarge := s.enlarge,
      shrinkThreshold := Some(s.shrinkThreshold),
      dropThreshold := Some(s.dropThreshold),
      modeElevation := s.modeElevation,
      representativePercent := Some(s.representativePercent),
      tooltip := s.tooltip,
      tooltipKeybinding := s.tooltipKeybinding,
      autoDisableDanmu := s.autoDisableDanmu,
      autoDanmuList := s.autoDanmuList,
      fluctlight := s.fluctlight,
      breakUpdate := s.breakUpdate,
      takeoverAijudge := s.takeoverAijudge,
      scrollThreshold := Some(s.scrollThreshold),
      popupBadge := s.popupBadge,
      combineThreads := Some(s.combineThreads),
      readPlayerBlacklist := s.readPlayerBlacklist
    )
  }

  /** The page's configuration object: the scalar options and the two
      pattern lists. FORCELIST entries are `[pattern, replacement]`,
      WHITELIST entries `[pattern, ""]`. */
  class Config {
    var settings: Settings
    var forcelist: seq<(string, string)>
    var whitelist: seq<(string, string)>

    /** Every FORCELIST and WHITELIST pattern compiles as a regular expression. */
    predicate PatternsCompile(compiles: string -> bool)
      reads this
    {
      && (forall i :: 0 <= i < |forcelist| ==> compiles(forcelist[i].0))
      && (forall i :: 0 <= i < |whitelist| ==> compiles(whitelist[i].0))
    }

    /** update: every control is copied into the configuration, the number
        fields through safe_int; the pattern lists are left alone. */
    method Update(form: Form, d: Defaults)
      modifies this`settings
      ensures settings == FromForm(form, d)
      ensures settings.InRangeOrDefault(d)
    {
      settings := FromForm(form, d);
    }

    /** The submit handler of the new-forcelist form: the anchored pattern
        and its replacement are appended when the pattern compiles; when it
        does not, try_regexp throws and nothing is appended. */
    method AddForcelist(pattern: string, name: string, compiles: string -> bool) returns (added: bool)
      modifies this`forcelist
      ensures added == compiles(RegexpWrap(pattern))
      ensures forcelist == if added then old(forcelist) + [(RegexpWrap(pattern), name)] else old(forcelist)
      ensures old(PatternsCompile(compiles)) ==> PatternsCompile(compiles)
    {
      var wrapped := RegexpWrap(pattern);
      added := compiles(wrapped);
      if added {
        forcelist := forcelist + [(wrapped, name)];
      }
    }

    /** The save button of FORCELIST entry `i`: the edited pattern (not
        re-anchored) and replacement replace the entry when the pattern
        compiles; otherwise try_regexp throws before either is written. */
    method SaveForcelist(i: nat, pattern: string, name: string, compiles: string -> bool) returns (saved: bool)
      requires i < |forcelist|
      modifies this`forcelist
      ensures saved == compiles(pattern)
      ensures forcelist == if saved then old(forcelist)[i := (pattern, name)] else old(forcelist)
      ensures old(PatternsCompile(compiles)) ==> PatternsCompile(compiles)
    {
      saved := compiles(pattern);
      if saved {
        forcelist := forcelist[i := (pattern, name)];
      }
    }

    /** The delete button of FORCELIST entry `i`: `splice(i, 1)`, which
        leaves the list alone when `i` is past its end. */
    method DeleteForcelist(i: nat)
      modifies this`forcelist
      ensures forcelist == if i < |old(forcelist)| then old(forcelist)[..i] + old(forcelist)[i + 1..] else old(forcelist)
      ensures |forcelist| == if i < |old(forcelist)| then |old(forcelist)| - 1 else |old(forcelist)|
    {
      if i < |forcelist| {
        forcelist := forcelist[..i] + forcelist[i + 1..];
      }
    }

    /** The submit handler of the new-whitelist form: the pattern, as typed,
        is appended with an empty second component when it compiles. */
    method AddWhitelist(pattern: string, compiles: string -> bool) returns (added: bool)
      modifies this`whitelist
      ensures added == compiles(pattern)
      ensures whitelist == if added then old(whitelist) + [(pattern, "")] else old(whitelist)
      ensures old(PatternsCompile(compiles)) ==> PatternsCompile(compiles)
    {
      added := compiles(pattern);
      if added {
        whitelist := whitelist + [(pattern, "")];
      }
    }

    /** The save button of WHITELIST entry `i`: only the pattern is replaced. */
    method SaveWhitelist(i: nat, pattern: string, compiles: string -> bool) returns (saved: bool)
      requires i < |whitelist|
      modifies this`whitelist
      ensures saved == compiles(pattern)
      ensures whitelist == if saved then old(whitelist)[i := (pattern, old(whitelist)[i].1)] else old(whitelist)
      ensures old(PatternsCompile(compiles)) ==> PatternsCompile(compiles)
    {
      saved := compiles(pattern);
      if saved {
        whitelist := whitelist[i := (pattern, whitelist[i].1)];
      }
    }

    /** The delete button of WHITELIST entry `i`: `splice(i, 1)`. */
    method DeleteWhitelist(i: nat)
      modifies this`whitelist
      ensures whitelist == if i < |old(whitelist)| then old(whitelist)[..i] + old(whitelist)[i + 1..] else old(whitelist)
      ensures |whitelist| == if i < |old(whitelist)| then |old(whitelist)| - 1 else |old(whitelist)|
    {
      if i < |whitelist| {
        whitelist := whitelist[..i] + whitelist[i + 1..];
      }
    }
  }
}
