# pakku.js glue logic, modelled in Dafny

pakku is a browser extension that merges and filters the danmaku (scrolling
comments) on bilibili. This project models two pieces of its glue code. The
first is the settings page (`page/options.ts`). It reads the settings form
back into the configuration. Numeric inputs are validated, and an
out-of-range or unparseable value is reset to its default. It anchors
force-list patterns. It keeps the force-list and white-list editors, and it
renders which image buttons are active. The second is the content script
injected into bilibili pages (`content_script/main.ts`). It assembles the
player's blacklist from the page's local storage. It caches the
configuration sent by the background script. It answers extension messages,
chooses the storage keys to clean up when the page unloads, and checks
message origins.

Files:

- `common.dfy` (module `Common`): `Option`/`Result`, JavaScript's
  `startsWith`/`endsWith`, and `'' + n` for integers. `'' + n` is proved
  to be the one canonical numeral that reads back as `n`.
- `options.dfy` (module `Options`): `RegexpWrap`, `SafeInt`, `Stringify`,
  the image-button state, the form-to-settings translation `FromForm`, and
  the class `Config`. `Config` holds the editable settings, the force list
  and the white list, and its methods are the page's edit handlers.
- `content_script.dfy` (module `ContentScript`): the blacklist pipeline.
  It has a specification function `PlayerBlacklist`, the method
  `GetPlayerBlacklist` proved equal to it, and lemmas on membership, order
  and provenance. It also holds the origin checks, and the class `Injected`
  for the script's module-level state (`tabid`, `local_config`,
  `unreg_userscript`).

Some things outside the program are passed in as parameters. Whether a
pattern compiles as a `RegExp` is a predicate `compiles`. `parseInt` is an
`Option<int>`, with `None` standing for `NaN`. Each local-storage entry is
`Absent`, `Malformed` or `Parsed(value)`. `Malformed` covers every content
that makes `JSON.parse` or the following field accesses throw. The
background script's reply is a `ConfigReply`. `Failed` stands for a reply
whose `error` is truthy; a reply with an empty error is a success in the
source and is given as `Reply`. An extension message is a `Message`.
`Unknown` stands for any `type` other than the four the listener
recognises; a message named `ping`, `refresh`, `dump_result` or
`reload_danmu` is given as that constructor. The default configuration is
a `Defaults` value.

## Model

| member | source | states |
|---|---|---|
| Common.IntToString | pakkujs/page/options.ts:518 | the text of any integer is a canonical numeral: it starts with `-` exactly when the integer is negative, has no leading zero and no `-0`, and reads back as that same integer |
| Common.CanonicalNumeralUnique | pakkujs/page/options.ts:518 | the text `'' + n` writes is the only canonical numeral that reads back as `n`, so equal values give equal texts |
| Common.NatToString | pakkujs/page/options.ts:518 | a natural number's text is a non-empty run of digits with no leading zero whose value is the number |
| Options.RegexpWrap | pakkujs/page/options.ts:54-60 | the result always starts with `^` and ends with `$`; `^.*` is prepended only when the pattern lacks `^`, and `.*$` appended only when it lacks `$`; an anchored pattern is returned unchanged |
| Options.RegexpWrapIdempotent | pakkujs/page/options.ts:54-60 | wrapping an already wrapped pattern changes nothing |
| Options.SafeInt | pakkujs/page/options.ts:563-571 | a parsed value within the optional bounds is kept; NaN or a value outside a given bound yields the fallback |
| Options.SafeIntStable | pakkujs/page/options.ts:563-571 | with an in-bounds fallback the result is always in bounds, and validating it again returns it unchanged |
| Options.Stringify | pakkujs/page/options.ts:514-519 | booleans render as `on`/`off`, numbers as the canonical numeral that reads back as the number, strings as themselves, a missing key as `undefined` |
| Options.StringifyNumbersDistinct | pakkujs/page/options.ts:514-519 | two numbers render the same only if they are equal, and no number renders like a boolean |
| Options.ButtonActive | pakkujs/page/options.ts:522-530 | a button value `!v` is active exactly when the setting's text differs from `v`; an unprefixed value is active exactly when it equals the setting's text |
| Options.ButtonNegation | pakkujs/page/options.ts:522-530 | prefixing `!` to a value without one flips exactly whether the button is active |
| Options.NumberButtonActive | pakkujs/page/options.ts:529-530 | a button whose value is a canonical numeral is active for a number setting exactly when the numeral denotes the setting's value |
| Options.Settings.Get | pakkujs/page/options.ts:529 | looking up a key gives a number only for the nine numeric keys, a switch only for the boolean keys, text only for DANMU_MARK and POPUP_BADGE, and `undefined` only for keys outside all three |
| Options.ButtonClass | pakkujs/page/options.ts:529-533 | the class is `img-active` or `img-inactive`; for a number setting, a numeral value is active exactly when it denotes the setting and a `!`-prefixed numeral exactly when it does not; for a switch the value is compared with `on`/`off` (so `on` is active exactly when it is on and `!on` exactly when it is off); for a text setting with the text itself; for a key the page does not edit with `undefined` |
| Options.RenderImgButtons | pakkujs/page/options.ts:521-534 | after the loop every button's class is `img-active` when its value matches the setting it names and `img-inactive` otherwise |
| Options.FromForm | pakkujs/page/options.ts:573-610 | every numeric setting read from the form lies in its range (THRESHOLD in [-1,180], REPRESENTATIVE_PERCENT in [0,100], MARK_THRESHOLD at least 1, the others at least 0) or equals its default |
| Options.ToForm | pakkujs/page/options.ts:358-394 | for settings already in range, reading back the form that loadconfig fills (the ignore-type boxes negated) yields the same settings, whatever the defaults |
| Options.Config.Update | pakkujs/page/options.ts:573-611 | the settings become the form's translation, so every numeric setting is in range or at its default; the lists are untouched |
| Options.Config.AddForcelist | pakkujs/page/options.ts:537-546 | the anchored pattern and name are appended exactly when the anchored pattern compiles; otherwise the list is unchanged; compiling lists stay compiling |
| Options.Config.SaveForcelist | pakkujs/page/options.ts:435-439 | entry i is replaced by the edited pattern and name exactly when the pattern compiles; nothing else changes |
| Options.Config.DeleteForcelist | pakkujs/page/options.ts:431-434 | entry i is removed and the others keep their order; an index past the end changes nothing |
| Options.Config.AddWhitelist | pakkujs/page/options.ts:547-555 | the pattern is appended, with an empty second component, exactly when it compiles |
| Options.Config.SaveWhitelist | pakkujs/page/options.ts:494-497 | only the pattern of entry i is replaced, and only when it compiles |
| Options.Config.DeleteWhitelist | pakkujs/page/options.ts:490-493 | entry i is removed and the others keep their order; an index past the end changes nothing |
| ContentScript.FilterEnabled | pakkujs/content_script/main.ts:36 | keeps exactly the items that are switched on and of text or regex kind |
| ContentScript.MapAsRule | pakkujs/content_script/main.ts:37 | each item becomes the pair (is it a regex, its filter), position by position |
| ContentScript.FilterUsable | pakkujs/content_script/main.ts:38-47 | keeps exactly the text rules and the regex rules that compile |
| ContentScript.ChainIsSelect | pakkujs/content_script/main.ts:34-48 | the three-stage filter-map-filter chain equals a single-pass selection of the kept items |
| ContentScript.SelectAppend | pakkujs/content_script/main.ts:32-48 | selecting from the player list followed by the extra list is the selection of each, concatenated |
| ContentScript.SelectMembership | pakkujs/content_script/main.ts:34-48 | a rule is in the result iff some enabled text/regex item produces it and, if it is a regex, it compiles |
| ContentScript.SelectKeepsOrder | pakkujs/content_script/main.ts:34-48 | the result is a subsequence of the mapped items, so their order is kept |
| ContentScript.PlayerItems | pakkujs/content_script/main.ts:22-29 | the player's list is used exactly as stored when the profile parsed and its blacklist is switched on; otherwise nothing comes from it |
| ContentScript.ExtraItems | pakkujs/content_script/main.ts:31 | the extra list is used exactly as stored when present; an absent key contributes nothing |
| ContentScript.PlayerBlacklist | pakkujs/content_script/main.ts:21-54 | the blacklist is empty whenever either storage entry cannot be parsed |
| ContentScript.GetPlayerBlacklist | pakkujs/content_script/main.ts:8-55 | the step-by-step computation returns the specified blacklist |
| ContentScript.PlayerBlacklistProvenance | pakkujs/content_script/main.ts:22-48 | with parseable storage, a rule is in the blacklist iff it comes from an enabled, usable item of the player's list (only when its blacklist is switched on) or of the extra list |
| ContentScript.TextRulesKept | pakkujs/content_script/main.ts:38-47 | every enabled text item from the switched-on player list or the extra list appears in the blacklist whatever `compiles` says |
| ContentScript.PlayerBlacklistOrder | pakkujs/content_script/main.ts:28-32 | the blacklist is the player part followed by the extra part, and is the extra part alone when the player's blacklist is switched off |
| ContentScript.IsBilibili | pakkujs/content_script/main.ts:150-152 | every accepted origin ends with `bilibili.com`, and every origin ending with `.bilibili.com` is accepted |
| ContentScript.IsBilibiliHost | pakkujs/content_script/main.ts:150-152 | for an origin `scheme//host`, the test holds iff the host is `bilibili.com` or ends with `.bilibili.com` |
| ContentScript.DotSuffixOfOrigin | pakkujs/content_script/main.ts:151 | an origin ends with `.bilibili.com` iff its host does |
| ContentScript.SlashSuffixOfOrigin | pakkujs/content_script/main.ts:151 | an origin ends with `//bilibili.com` iff its host is exactly `bilibili.com` |
| ContentScript.ExtDomain | pakkujs/content_script/main.ts:154-156 | one trailing `/` is removed and nothing else changes |
| ContentScript.ExtDomainOfBaseUrl | pakkujs/content_script/main.ts:154-156 | the extension base URL `origin + "/"` yields the origin, the value message origins are compared with |
| ContentScript.Injected.constructor | pakkujs/content_script/main.ts:57-59 | no tab id, no cached configuration, and user scripts are unregistered on unload |
| ContentScript.Injected.GetLocalConfig | pakkujs/content_script/main.ts:76-100 | a cached configuration is returned with nothing changed; a failed reply is an error prefixed `in background script: ` with nothing changed; otherwise tab id and configuration are stored, BLACKLIST is the player blacklist when the background's list is non-empty and empty otherwise, and a non-empty extra user script is appended after a blank line |
| ContentScript.Injected.HandleMessage | pakkujs/content_script/main.ts:104-148 | only `ping` gets a pong; `reload_danmu` drops the cached configuration; `refresh` stops the unload handler from removing the user script; other messages change nothing |
| ContentScript.Injected.CleanupKeys | pakkujs/content_script/main.ts:78-91 | before a configuration has been fetched (no tab id) nothing is removed, because no unload handler is registered yet; afterwards exactly the tab's stats key is removed, plus its user-script key exactly when user scripts are unregistered |

## Left out

- Page building, the highlighter, `show_note`, `set_select_value`, alerts and every other DOM effect: user interface only. The alert that `safe_int` and `try_regexp` show on bad input is not modelled. Their returned values are.
- `chrome.storage`, `chrome.runtime` messaging, `reload()`, saving, the reset and backup/restore prompts, `ver_check`, and the permission prompt of `get_ws_permission_and_reload` (which can reset BREAK_UPDATE): these are browser I/O.
- The image-button click handler (`page/options.ts:556-561`) stores the button's raw string in the setting. The settings here are typed fields, so that string-for-boolean replacement is not modelled.
- Options.Config.Update: the source's 31 field assignments are modelled as one replacement of the settings record. Its `break-update` permission branch after line 611 is browser I/O. Keys the settings page does not edit read as `Undefined` in `Settings.Get`.
- ContentScript.Injected.GetLocalConfig: the asynchronous round trip is one call. Two calls issued before the first reply are not modelled. The `onbeforeunload` registration is modelled only through `CleanupKeys`, and the badge message it sends is left out.
- ContentScript.Injected.HandleMessage: the `dump_result` answer comes from the scheduler, which is not part of this model. The page reload after `refresh` and `reload_danmu_magic` are browser effects.
- The window `message` handler (`content_script/main.ts:163-242`), including the `process_local` request that sets GLOBAL_SWITCH on the cached configuration, `userscript_sandbox` and `is_proto_view`: it forwards to the sandbox and scheduler, which are not part of this model.
- A profile that parses to `null` or to another falsy value (`0`, `""`, `false`) is treated by the source as an empty, switched-off profile. Such a profile is given to the model as `Absent`, so the extra list is still used.
- `parseInt`, `RegExp` compilation and `JSON.parse` are abstract. JavaScript numbers are doubles, while the model's integers are unbounded, so precision loss beyond 2^53 is not modelled.
- Common.IntToString: the numeral form is modelled for every integer, but JavaScript writes a magnitude of 1e21 or more in exponent form (`1e+21`). Such values can reach fields that have no maximum, such as MAX_DIST. The model's text for them differs from the source's.
- `page/view_result.ts` is not part of this model. It is a viewer page with no logic beyond display.
