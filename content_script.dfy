/** Model of the injected content script (pakkujs/content_script/main.ts):
    reading the player's comment block list out of page storage, the origin
    checks on page messages, and the script's own state (the tab id, the
    cached per-tab configuration, the userscript clean-up flag) as the
    configuration request and the extension's messages change it.

    Page storage is given as already parsed values: `Stored<T>` says whether
    a key was absent, held text JSON.parse rejects, or held a value.
    Regular-expression compilation is a parameter `compiles: string -> bool`. */
module ContentScript {
  import opened Common

  // ---------------------------------------------------------------------
  // get_player_blacklist
  // ---------------------------------------------------------------------

  /** One entry of the player's block list: `kind` 0 is a text rule, 1 a
      regular expression, 2 a blocked user. */
  datatype BlockItem = BlockItem(kind: int, filter: string, isOpen: bool, id: int)

  /** The player profile stored under `bpx_player_profile`. */
  datatype Profile = Profile(blockList: seq<BlockItem>, status: bool)

  datatype Stored<T> = Absent | Malformed | Parsed(value: T)

  /** The page storage the content script reads. */
  datatype Storage = Storage(
    profile: Stored<Profile>,
    extraBlacklist: Stored<seq<BlockItem>>,
    extraUserscript: string)

  /** A blacklist rule handed to the merging pipeline: `[is_regex, pattern]`. */
  datatype BlacklistItem = BlacklistItem(isRegex: bool, pattern: string)

  /** The first filter: enabled text or regular-expression entries. */
  predicate Enabled(item: BlockItem) {
    item.isOpen && (item.kind == 0 || item.kind == 1)
  }

  /** The map: `[type === 1, filter]`. */
  function AsRule(item: BlockItem): BlacklistItem {
    BlacklistItem(item.kind == 1, item.filter)
  }

  /** The second filter: text rules always pass, regular expressions only
      when they compile. */
  predicate Usable(rule: BlacklistItem, compiles: string -> bool) {
    !rule.isRegex || compiles(rule.pattern)
  }

  function FilterEnabled(items: seq<BlockItem>): (r: seq<BlockItem>)
    ensures |r| <= |items|
    ensures forall x :: x in r <==> x in items && Enabled(x)
  {
    if items == [] then []
    else (if Enabled(items[0]) then [items[0]] else []) + FilterEnabled(items[1..])
  }

  function MapAsRule(items: seq<BlockItem>): (r: seq<BlacklistItem>)
    ensures |r| == |items|
    ensures forall i :: 0 <= i < |items| ==> r[i] == AsRule(items[i])
  {
    if items == [] then [] else [AsRule(items[0])] + MapAsRule(items[1..])
  }

  function FilterUsable(rules: seq<BlacklistItem>, compiles: string -> bool): (r: seq<BlacklistItem>)
    ensures |r| <= |rules|
    ensures forall x :: x in r <==> x in rules && Usable(x, compiles)
  {
    if rules == [] then []
    else (if Usable(rules[0], compiles) then [rules[0]] else []) + FilterUsable(rules[1..], compiles)
  }

  /** An entry survives the whole chain: enabled, and compiling if it is a
      regular expression. */
  predicate Kept(item: BlockItem, compiles: string -> bool) {
    Enabled(item) && (item.kind == 1 ==> compiles(item.filter))
  }

  /** Single-pass reference for the filter/map/filter chain. */
  function Select(items: seq<BlockItem>, compiles: string -> bool): seq<BlacklistItem> {
    if items == [] then []
    else (if Kept(items[0], compiles) then [AsRule(items[0])] else []) + Select(items[1..], compiles)
  }

  /** The three-stage chain of the source computes exactly Select. */
  lemma {:induction false} ChainIsSelect(items: seq<BlockItem>, compiles: string -> bool)
    ensures FilterUsable(MapAsRule(FilterEnabled(items)), compiles) == Select(items, compiles)
  {
    if items != [] {
      ChainIsSelect(items[1..], compiles);
      var x := items[0];
      var rest := FilterEnabled(items[1..]);
      if Enabled(x) {
        assert FilterEnabled(items) == [x] + rest;
        assert MapAsRule([x] + rest) == [AsRule(x)] + MapAsRule(rest);
        assert Usable(AsRule(x), compiles) == Kept(x, compiles);
      } else {
        assert FilterEnabled(items) == rest;
      }
    }
  }

  lemma {:induction false} SelectAppend(a: seq<BlockItem>, b: seq<BlockItem>, compiles: string -> bool)
    ensures Select(a + b, compiles) == Select(a, compiles) + Select(b, compiles)
  {
    if a == [] {
      assert a + b == b;
    } else {
      assert (a + b)[0] == a[0];
      assert (a + b)[1..] == a[1..] + b;
      SelectAppend(a[1..], b, compiles);
    }
  }

  /** A rule is produced exactly when some entry that is kept maps to it. */
  lemma {:induction false} SelectMembership(items: seq<BlockItem>, compiles: string -> bool, rule: BlacklistItem)
    ensures rule in Select(items, compiles) <==>
            exists i :: 0 <= i < |items| && Kept(items[i], compiles) && AsRule(items[i]) == rule
  {
    if items != [] {
      SelectMembership(items[1..], compiles, rule);
      if rule in Select(items[1..], compiles) {
        var i :| 0 <= i < |items[1..]| && Kept(items[1..][i], compiles) && AsRule(items[1..][i]) == rule;
        assert items[i + 1] == items[1..][i];
      }
      if exists i :: 0 <= i < |items| && Kept(items[i], compiles) && AsRule(items[i]) == rule {
        var i :| 0 <= i < |items| && Kept(items[i], compiles) && AsRule(items[i]) == rule;
        if i > 0 {
          assert items[1..][i - 1] == items[i];
        }
      }
    }
  }

  /** `r` is `s` with some elements left out, the rest in their order. */
  ghost predicate IsSubsequence<T>(r: seq<T>, s: seq<T>)
    decreases |s|
  {
    if r == [] then true
    else if s == [] then false
    else (r[0] == s[0] && IsSubsequence(r[1..], s[1..])) || IsSubsequence(r, s[1..])
  }

  /** The chain keeps the relative order of the entries it keeps. */
  lemma {:induction false} SelectKeepsOrder(items: seq<BlockItem>, compiles: string -> bool)
    ensures IsSubsequence(Select(items, compiles), MapAsRule(items))
  {
    if items != [] {
      SelectKeepsOrder(items[1..], compiles);
      var s := MapAsRule(items);
      assert s[1..] == MapAsRule(items[1..]);
      var r := Select(items, compiles);
      if Kept(items[0], compiles) {
        assert r == [AsRule(items[0])] + Select(items[1..], compiles);
        assert r[0] == s[0] && r[1..] == Select(items[1..], compiles);
      } else {
        assert r == Select(items[1..], compiles);
      }
    }
  }

  /** The entries the pipeline starts from: the player's own list only when
      the player's blacklist is switched on (`dmSetting.status`); an absent
      profile counts as switched off. */
  function PlayerItems(profile: Stored<Profile>): (items: seq<BlockItem>)
    ensures profile.Parsed? && profile.value.status ==> items == profile.value.blockList
    ensures items != [] ==> profile.Parsed? && profile.value.status
  {
    if profile.Parsed? && profile.value.status then profile.value.blockList else []
  }

  /** The extra list; an absent key reads as `[]`. */
  function ExtraItems(extra: Stored<seq<BlockItem>>): (items: seq<BlockItem>)
    ensures extra.Parsed? ==> items == extra.value
    ensures items != [] ==> extra.Parsed?
  {
    if extra.Parsed? then extra.value else []
  }

  /** What get_player_blacklist returns: the empty list when reading storage
      throws, otherwise the chain applied to the player's list followed by
      the extra list. */
  function PlayerBlacklist(storage: Storage, compiles: string -> bool): (r: seq<BlacklistItem>)
    ensures storage.profile.Malformed? || storage.extraBlacklist.Malformed? ==> r == []
  {
    if storage.profile.Malformed? || storage.extraBlacklist.Malformed? then []
    else Select(PlayerItems(storage.profile) + ExtraItems(storage.extraBlacklist), compiles)
  }

  /** get_player_blacklist: parse the profile (a missing one stands for an
      empty, switched-off list), empty the list when the player's blacklist
      is off, append the extra list, then filter, map and filter. */
  method GetPlayerBlacklist(storage: Storage, compiles: string -> bool) returns (ret: seq<BlacklistItem>)
    ensures ret == PlayerBlacklist(storage, compiles)
  {
    if storage.profile.Malformed? {
      return [];
    }
    var blockList: seq<BlockItem> := [];
    var status := false;
    if storage.profile.Parsed? {
      blockList := storage.profile.value.blockList;
      status := storage.profile.value.status;
    }
    if !status {
      blockList := [];
    }
    if storage.extraBlacklist.Malformed? {
      return [];
    }
    var extra := if storage.extraBlacklist.Parsed? then storage.extraBlacklist.value else [];
    blockList := blockList + extra;
    ret := FilterUsable(MapAsRule(FilterEnabled(blockList)), compiles);
    ChainIsSelect(blockList, compiles);
  }

  /** Every returned rule comes from an enabled text or regular-expression
      entry of the player's (switched-on) list or of the extra list; its
      flag says whether that entry was a regular expression, its pattern is
      the entry's filter; and every such entry that is a text rule or a
      compiling regular expression is returned. */
  lemma PlayerBlacklistProvenance(storage: Storage, compiles: string -> bool, rule: BlacklistItem)
    requires !storage.profile.Malformed? && !storage.extraBlacklist.Malformed?
    ensures rule in PlayerBlacklist(storage, compiles) <==>
            exists item :: item in PlayerItems(storage.profile) + ExtraItems(storage.extraBlacklist)
                           && item.isOpen && (item.kind == 0 || item.kind == 1)
                           && (item.kind == 1 ==> compiles(item.filter))
                           && rule.isRegex == (item.kind == 1) && rule.pattern == item.filter
  {
    var items := PlayerItems(storage.profile) + ExtraItems(storage.extraBlacklist);
    SelectMembership(items, compiles, rule);
    if rule in PlayerBlacklist(storage, compiles) {
      var i :| 0 <= i < |items| && Kept(items[i], compiles) && AsRule(items[i]) == rule;
      assert items[i] in items;
    }
  }

  /** Text rules are never dropped by the validity check: each enabled text
      entry yields a rule whatever `compiles` says. */
  lemma TextRulesKept(storage: Storage, compiles: string -> bool, item: BlockItem)
    requires !storage.profile.Malformed? && !storage.extraBlacklist.Malformed?
    requires item in PlayerItems(storage.profile) + ExtraItems(storage.extraBlacklist)
    requires item.isOpen && item.kind == 0
    ensures BlacklistItem(false, item.filter) in PlayerBlacklist(storage, compiles)
  {
    PlayerBlacklistProvenance(storage, compiles, BlacklistItem(false, item.filter));
  }

  /** The player's rules come first, then the extra ones, each group in its
      stored order; with the player's blacklist switched off only the extra
      list contributes. */
  lemma PlayerBlacklistOrder(storage: Storage, compiles: string -> bool)
    requires !storage.profile.Malformed? && !storage.extraBlacklist.Malformed?
    ensures PlayerBlacklist(storage, compiles)
            == Select(PlayerItems(storage.profile), compiles) + Select(ExtraItems(storage.extraBlacklist), compiles)
    ensures IsSubsequence(Select(PlayerItems(storage.profile), compiles), MapAsRule(PlayerItems(storage.profile)))
    ensures IsSubsequence(Select(ExtraItems(storage.extraBlacklist), compiles), MapAsRule(ExtraItems(storage.extraBlacklist)))
    ensures !(storage.profile.Parsed? && storage.profile.value.status) ==>
            PlayerBlacklist(storage, compiles) == Select(ExtraItems(storage.extraBlacklist), compiles)
  {
    SelectAppend(PlayerItems(storage.profile), ExtraItems(storage.extraBlacklist), compiles);
    SelectKeepsOrder(PlayerItems(storage.profile), compiles);
    SelectKeepsOrder(ExtraItems(storage.extraBlacklist), compiles);
  }

  // ---------------------------------------------------------------------
  // Origin checks
  // ---------------------------------------------------------------------

  /** is_bilibili */
  function IsBilibili(origin: string): (accepted: bool)
    ensures accepted ==> EndsWith(origin, "bilibili.com")
    ensures EndsWith(origin, ".bilibili.com") ==> accepted
  {
    var dot := EndsWith(origin, ".bilibili.com");
    var slash := EndsWith(origin, "//bilibili.com");
    assert dot ==> origin[|origin| - 12..] == origin[|origin| - 13..][1..];
    assert slash ==> origin[|origin| - 12..] == origin[|origin| - 14..][2..];
    dot || slash
  }

  /** For an origin `scheme//host` whose host holds no `/`, the test accepts
      exactly bilibili.com itself and its subdomains. */
  lemma IsBilibiliHost(scheme: string, host: string)
    requires forall i :: 0 <= i < |host| ==> host[i] != '/'
    ensures IsBilibili(scheme + "//" + host) <==> host == "bilibili.com" || EndsWith(host, ".bilibili.com")
  {
    DotSuffixOfOrigin(scheme, host);
    SlashSuffixOfOrigin(scheme, host);
  }

  /** The character just before the host of `scheme//host` is a `/`, and the
      last `|host|` characters are the host. */
  lemma OriginTail(scheme: string, host: string)
    ensures |scheme + "//" + host| == |scheme| + 2 + |host|
    ensures (scheme + "//" + host)[|scheme| + 1] == '/'
    ensures (scheme + "//" + host)[|scheme| + 2..] == host
  {
  }

  lemma DotSuffixOfOrigin(scheme: string, host: string)
    requires forall i :: 0 <= i < |host| ==> host[i] != '/'
    ensures EndsWith(scheme + "//" + host, ".bilibili.com") <==> EndsWith(host, ".bilibili.com")
  {
    var origin := scheme + "//" + host;
    var n, h := |origin|, |host|;
    OriginTail(scheme, host);
    if h >= 13 {
      assert origin[n - 13..] == host[h - 13..];
    } else if n >= 13 {
      // the suffix would have to cover the `/` in front of the host
      assert origin[n - 13..][12 - h] == origin[n - h - 1] == '/';
      assert ".bilibili.com"[12 - h] != '/';
    }
  }

  lemma SlashSuffixOfOrigin(scheme: string, host: string)
    requires forall i :: 0 <= i < |host| ==> host[i] != '/'
    ensures EndsWith(scheme + "//" + host, "//bilibili.com") <==> host == "bilibili.com"
  {
    var origin := scheme + "//" + host;
    var n, h := |origin|, |host|;
    OriginTail(scheme, host);
    if h == 12 {
      assert origin[n - 14..] == "//" + host;
      assert ("//" + host)[2..] == host && "//bilibili.com"[2..] == "bilibili.com";
    } else if h > 12 {
      // the host would have to hold the second `/` of the suffix
      assert origin[n - 14..][1] == origin[n - 13] == host[h - 13] != '/';
    } else if n >= 14 {
      // the suffix would have to cover the `/` in front of the host with a letter
      assert origin[n - 14..][13 - h] == origin[n - h - 1] == '/';
      assert "//bilibili.com"[13 - h] != '/';
    }
  }

  /** The extension's own origin: `getURL('')` with one trailing `/` removed. */
  function ExtDomain(url: string): (r: string)
    ensures EndsWith(url, "/") ==> r + "/" == url
    ensures !EndsWith(url, "/") ==> r == url
  {
    if EndsWith(url, "/") then url[..|url| - 1] else url
  }

  /** The base URL of an origin (`origin + "/"`) strips back to that origin,
      so pages of the extension pass the `event.origin === ext_domain` test. */
  lemma ExtDomainOfBaseUrl(origin: string)
    ensures ExtDomain(origin + "/") == origin
  {
    assert (origin + "/")[..|origin|] == origin;
  }

  // ---------------------------------------------------------------------
  // Module state: tabid, local_config, unreg_userscript
  // ---------------------------------------------------------------------

  /** The parts of the per-tab configuration this file reads or rewrites. */
  datatype LocalConfig = LocalConfig(blacklist: seq<BlacklistItem>, userscript: string, globalSwitch: bool)

  /** The background script's answer to `get_local_config`. */
  datatype ConfigReply = Reply(tabid: int, config: LocalConfig) | Failed(error: string)

  /** The messages the extension sends to the content script. */
  datatype Message = Ping | Refresh | DumpResult | ReloadDanmu | Unknown(kind: string)

  class Injected {
    var tabid: Option<int>
    var localConfig: Option<LocalConfig>
    var unregUserscript: bool

    /** The state when the script is injected. */
    constructor ()
      ensures tabid == None && localConfig == None && unregUserscript
    {
      tabid := None;
      localConfig := None;
      unregUserscript := true;
    }

    /** get_local_config: the cached configuration when there is one;
        otherwise the background's answer, with BLACKLIST replaced by the
        player's block list when the fetched one is non-empty (and by `[]`
        otherwise), and the extra userscript appended when storage has one. */
    method GetLocalConfig(reply: ConfigReply, storage: Storage, compiles: string -> bool)
      returns (r: Result<LocalConfig>)
      modifies this`tabid, this`localConfig
      ensures old(localConfig).Some? ==> r == Ok(old(localConfig).value) && unchanged(this)
      ensures old(localConfig).None? && reply.Failed? ==>
              r == Err("in background script: " + reply.error) && unchanged(this)
      ensures old(localConfig).None? && reply.Reply? ==>
              && r.Ok?
              && tabid == Some(reply.tabid) && localConfig == Some(r.value)
              && r.value.blacklist
                 == (if |reply.config.blacklist| > 0 then PlayerBlacklist(storage, compiles) else [])
              && r.value.userscript
                 == (if storage.extraUserscript != "" then reply.config.userscript + "\n\n" + storage.extraUserscript
                     else reply.config.userscript)
              && r.value.globalSwitch == reply.config.globalSwitch
    {
      if localConfig.Some? {
        return Ok(localConfig.value);
      }
      if reply.Failed? {
        return Err("in background script: " + reply.error);
      }
      tabid := Some(reply.tabid);
      var config := reply.config;
      if |config.blacklist| > 0 {
        var blacklist := GetPlayerBlacklist(storage, compiles);
        config := config.(blacklist := blacklist);
      } else {
        config := config.(blacklist := []);
      }
      if storage.extraUserscript != "" {
        config := config.(userscript := config.userscript + "\n\n" + storage.extraUserscript);
      }
      localConfig := Some(config);
      r := Ok(config);
    }

    /** The extension message listener: `ping` is answered with a pong
        (`dump_result` is answered by the scheduler, which is not part of
        this model), `refresh` keeps
        the userscript registered across the reload it triggers,
        `reload_danmu` drops the cached configuration so the next request
        fetches it again; nothing else touches this state. */
    method HandleMessage(msg: Message) returns (pong: bool)
      modifies this`localConfig, this`unregUserscript
      ensures pong <==> msg.Ping?
      ensures localConfig == if msg.ReloadDanmu? then None else old(localConfig)
      ensures unregUserscript == if msg.Refresh? then false else old(unregUserscript)
    {
      pong := false;
      match msg
      case Ping => pong := true;
      case Refresh => unregUserscript := false;
      case ReloadDanmu => localConfig := None;
      case DumpResult =>
      case Unknown(_) =>
    }

    /** The storage keys removed when the page unloads. The unload handler
        is registered only once a configuration has been fetched, which is
        when the tab id becomes known; from then on it removes the tab's
        statistics, and its userscript only while no `refresh` has been
        received. */
    function CleanupKeys(): (keys: seq<string>)
      reads this
      ensures tabid.None? ==> keys == []
      ensures tabid.Some? ==> "STATS_" + IntToString(tabid.value) in keys
      ensures tabid.Some? ==> ("USERSCRIPT_" + IntToString(tabid.value) in keys <==> unregUserscript)
      ensures tabid.Some? ==> forall k :: k in keys ==>
                k == "STATS_" + IntToString(tabid.value) || k == "USERSCRIPT_" + IntToString(tabid.value)
    {
      if tabid.None? then []
      else
        var t := IntToString(tabid.value);
        assert ("USERSCRIPT_" + t)[0] != ("STATS_" + t)[0];
        if unregUserscript then ["STATS_" + t, "USERSCRIPT_" + t] else ["STATS_" + t]
    }
  }
}
