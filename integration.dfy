/** The running integration: what `async_setup_entry` builds (the registries of tracked members
    and channels, the Steam catalog it reloads) and the event handlers it registers on the chat
    client. State refreshes requested from the host are recorded, in order, in `refreshes`. */
module Integration {
  import opened Wrappers
  import opened Text
  import opened Discord
  import opened Naming
  import opened Records
  import opened Entities

  function UserKey(u: User): string {
    u.name
  }

  function ChannelKey(c: Channel): string {
    c.name
  }

  /** The registry a build loop produces from the configured entries: every entry passes the
      snowflake guard; an entry the fetch resolves is stored under its key, replacing what an
      earlier entry with the same key stored. */
  function Registry<T>(config: seq<string>, fetch: string -> Option<T>, key: T -> string): map<string, T>
    decreases |config|
  {
    if config == [] then map[]
    else
      var m := Registry(config[..|config| - 1], fetch, key);
      var c := config[|config| - 1];
      if SnowflakePrefixMatch(c).Some? && fetch(c).Some? then m[key(fetch(c).value) := fetch(c).value] else m
  }

  /** The registry's keys in dict order: each key at the place it was first inserted. */
  function RegistryOrder<T>(config: seq<string>, fetch: string -> Option<T>, key: T -> string): seq<string>
    decreases |config|
  {
    if config == [] then []
    else
      var o := RegistryOrder(config[..|config| - 1], fetch, key);
      var c := config[|config| - 1];
      if SnowflakePrefixMatch(c).Some? && fetch(c).Some? && key(fetch(c).value) !in o
      then o + [key(fetch(c).value)] else o
  }

  /** The order lists every registry key exactly once. */
  lemma {:induction false} RegistryOrderListsKeys<T>(config: seq<string>, fetch: string -> Option<T>, key: T -> string)
    ensures Distinct(RegistryOrder(config, fetch, key))
    ensures forall k :: k in RegistryOrder(config, fetch, key) <==> k in Registry(config, fetch, key)
    decreases |config|
  {
    if config != [] {
      RegistryOrderListsKeys(config[..|config| - 1], fetch, key);
    }
  }

  /** Every configured entry that resolves is tracked under its key, and nothing else is. */
  lemma {:induction false} RegistryTracksResolvedEntries<T>(config: seq<string>, fetch: string -> Option<T>,
                                                            key: T -> string, k: string)
    ensures k in Registry(config, fetch, key) <==>
            exists i :: 0 <= i < |config| && fetch(config[i]).Some? && key(fetch(config[i]).value) == k
    decreases |config|
  {
    if config != [] {
      var init := config[..|config| - 1];
      RegistryTracksResolvedEntries(init, fetch, key, k);
      if exists i :: 0 <= i < |init| && fetch(init[i]).Some? && key(fetch(init[i]).value) == k {
        var i :| 0 <= i < |init| && fetch(init[i]).Some? && key(fetch(init[i]).value) == k;
        assert config[i] == init[i];
      }
      if exists i :: 0 <= i < |config| && fetch(config[i]).Some? && key(fetch(config[i]).value) == k {
        var i :| 0 <= i < |config| && fetch(config[i]).Some? && key(fetch(config[i]).value) == k;
        if i < |init| {
          assert config[i] == init[i];
        }
      }
    }
  }

  /** A key's record comes from the last configured entry that resolves to that key. */
  lemma {:induction false} RegistryKeepsLastEntry<T>(config: seq<string>, fetch: string -> Option<T>,
                                                     key: T -> string, k: string)
    requires k in Registry(config, fetch, key)
    ensures exists i :: && 0 <= i < |config| && fetch(config[i]) == Some(Registry(config, fetch, key)[k])
                        && key(Registry(config, fetch, key)[k]) == k
                        && forall j :: i < j < |config| && fetch(config[j]).Some? ==> key(fetch(config[j]).value) != k
    decreases |config|
  {
    var init, c := config[..|config| - 1], config[|config| - 1];
    var m := Registry(config, fetch, key);
    if fetch(c).Some? && key(fetch(c).value) == k {
      assert fetch(config[|config| - 1]) == Some(m[k]);
    } else {
      RegistryKeepsLastEntry(init, fetch, key, k);
      var i :| && 0 <= i < |init| && fetch(init[i]) == Some(Registry(init, fetch, key)[k])
               && key(Registry(init, fetch, key)[k]) == k
               && forall j :: i < j < |init| && fetch(init[j]).Some? ==> key(fetch(init[j]).value) != k;
      assert config[i] == init[i];
      assert forall j :: i < j < |init| ==> config[j] == init[j];
    }
  }

  function Lookup<T>(m: map<string, T>, k: string): (r: Option<T>)
    ensures r.Some? <==> k in m
    ensures r.Some? ==> r.value == m[k]
  {
    if k in m then Some(m[k]) else None
  }

  /** One more configured entry that resolves: the registry stores it under its key, and the
      key joins the order unless it is already there. */
  lemma RegistryStepResolved<T>(config: seq<string>, fetch: string -> Option<T>, key: T -> string, i: nat,
                                 v: T, k: string)
    requires i < |config| && SnowflakePrefixMatch(config[i]).Some? && fetch(config[i]) == Some(v) && key(v) == k
    ensures Registry(config[..i + 1], fetch, key) == Registry(config[..i], fetch, key)[k := v]
    ensures RegistryOrder(config[..i + 1], fetch, key)
            == if k in Registry(config[..i], fetch, key) then RegistryOrder(config[..i], fetch, key)
               else RegistryOrder(config[..i], fetch, key) + [k]
  {
    assert config[..i + 1][..i] == config[..i];
    RegistryOrderListsKeys(config[..i], fetch, key);
  }

  /** One more configured entry that does not resolve: nothing changes. */
  lemma RegistryStepUnresolved<T>(config: seq<string>, fetch: string -> Option<T>, key: T -> string, i: nat)
    requires i < |config| && !(SnowflakePrefixMatch(config[i]).Some? && fetch(config[i]).Some?)
    ensures Registry(config[..i + 1], fetch, key) == Registry(config[..i], fetch, key)
    ensures RegistryOrder(config[..i + 1], fetch, key) == RegistryOrder(config[..i], fetch, key)
  {
    assert config[..i + 1][..i] == config[..i];
  }

  /** A member entity as created from a fetched user. */
  ghost predicate StartsFrom(w: MemberState, u: User)
    reads w
  {
    w.createdUserid == u.id && w.Snapshot() == InitialRecord(u.name, u.globalName, u.id)
  }

  /** The member entities of a registry: one per key, each created from that key's user, and
      no entity shared by two keys. */
  ghost predicate TracksUsers(ws: map<string, MemberState>, registry: map<string, User>)
    reads ws.Values
  {
    && ws.Keys == registry.Keys
    && (forall k :: k in ws ==> StartsFrom(ws[k], registry[k]))
    && (forall k1, k2 :: k1 in ws && k2 in ws && ws[k1] == ws[k2] ==> k1 == k2)
  }

  /** One turn of the member build loop, for the configured entry `config[i]`: when it passes
      the snowflake guard and fetch_user resolves it, a fresh member entity is stored under the
      user's name (a name seen before keeps its place in the order); otherwise nothing changes. */
  method TrackMember(config: seq<string>, fetchUser: string -> Option<User>, i: nat,
                     ws: map<string, MemberState>, order: seq<string>, ghost registry: map<string, User>)
    returns (ws': map<string, MemberState>, order': seq<string>, ghost registry': map<string, User>)
    requires i < |config|
    requires registry == Registry(config[..i], fetchUser, UserKey)
    requires order == RegistryOrder(config[..i], fetchUser, UserKey)
    requires TracksUsers(ws, registry)
    ensures registry' == Registry(config[..i + 1], fetchUser, UserKey)
    ensures order' == RegistryOrder(config[..i + 1], fetchUser, UserKey)
    ensures TracksUsers(ws', registry')
    ensures forall k :: k in ws' ==> fresh(ws'[k]) || (k in ws && ws'[k] == ws[k])
  {
    var member := config[i];
    if SnowflakePrefixMatch(member).Some? && fetchUser(member).Some? {
      var user := fetchUser(member).value;
      RegistryStepResolved(config, fetchUser, UserKey, i, user, user.name);
      var watcher := new MemberState(user.name, user.globalName, user.id);
      order' := order;
      if watcher.Name() !in ws {
        order' := order + [watcher.Name()];
      }
      ws' := ws[watcher.Name() := watcher];
      registry' := registry[user.name := user];
    } else {
      RegistryStepUnresolved(config, fetchUser, UserKey, i);
      ws', order', registry' := ws, order, registry;
    }
  }

  /** A channel entity as created from a fetched channel. */
  ghost predicate StartsFromChannel(c: ReactionState, chan: Channel)
    reads c
  {
    c.channelId == chan.id && c.channelName == chan.name && c.state == "unknown" && c.lastUser == None
  }

  /** The channel entities of a registry: one per key, each created from that key's channel,
      and no entity shared by two keys. */
  ghost predicate TracksChannels(cs: map<string, ReactionState>, registry: map<string, Channel>)
    reads cs.Values
  {
    && cs.Keys == registry.Keys
    && (forall k :: k in cs ==> StartsFromChannel(cs[k], registry[k]))
    && (forall k1, k2 :: k1 in cs && k2 in cs && cs[k1] == cs[k2] ==> k1 == k2)
  }

  /** One turn of the channel build loop, for the configured entry `config[i]`: when it passes
      the snowflake guard and fetch_channel resolves it, a fresh channel entity is stored under
      the channel's name (a name seen before keeps its place in the order); otherwise nothing
      changes. */
  method TrackChannel(config: seq<string>, fetchChannel: string -> Option<Channel>, i: nat,
                      cs: map<string, ReactionState>, order: seq<string>, ghost registry: map<string, Channel>)
    returns (cs': map<string, ReactionState>, order': seq<string>, ghost registry': map<string, Channel>)
    requires i < |config|
    requires registry == Registry(config[..i], fetchChannel, ChannelKey)
    requires order == RegistryOrder(config[..i], fetchChannel, ChannelKey)
    requires TracksChannels(cs, registry)
    ensures registry' == Registry(config[..i + 1], fetchChannel, ChannelKey)
    ensures order' == RegistryOrder(config[..i + 1], fetchChannel, ChannelKey)
    ensures TracksChannels(cs', registry')
    ensures forall k :: k in cs' ==> fresh(cs'[k]) || (k in cs && cs'[k] == cs[k])
  {
    var channel := config[i];
    if SnowflakePrefixMatch(channel).Some? && fetchChannel(channel).Some? {
      var chan := fetchChannel(channel).value;
      RegistryStepResolved(config, fetchChannel, ChannelKey, i, chan, chan.name);
      var ch := new ReactionState(chan.name, chan.id);
      order' := order;
      if ch.Name() !in cs {
        order' := order + [ch.Name()];
      }
      cs' := cs[ch.Name() := ch];
      registry' := registry[chan.name := chan];
    } else {
      RegistryStepUnresolved(config, fetchChannel, ChannelKey, i);
      cs', order', registry' := cs, order, registry;
    }
  }

  /** The member build loop of the setup: one fresh member entity per tracked user name. */
  method BuildWatchers(config: seq<string>, fetchUser: string -> Option<User>)
    returns (ws: map<string, MemberState>, order: seq<string>)
    ensures order == RegistryOrder(config, fetchUser, UserKey)
    ensures forall k :: k in ws <==> k in Registry(config, fetchUser, UserKey)
    ensures forall k :: k in ws ==>
      var u := Registry(config, fetchUser, UserKey)[k];
      fresh(ws[k]) && ws[k].createdUserid == u.id && ws[k].Snapshot() == InitialRecord(u.name, u.globalName, u.id)
    ensures forall k1, k2 :: k1 in ws && k2 in ws && ws[k1] == ws[k2] ==> k1 == k2
  {
    ws, order := map[], [];
    ghost var registry: map<string, User> := map[];
    var i := 0;
    while i < |config|
      invariant 0 <= i <= |config|
      invariant registry == Registry(config[..i], fetchUser, UserKey)
      invariant order == RegistryOrder(config[..i], fetchUser, UserKey)
      invariant TracksUsers(ws, registry)
      invariant forall k :: k in ws ==> fresh(ws[k])
    {
      ws, order, registry := TrackMember(config, fetchUser, i, ws, order, registry);
      i := i + 1;
    }
    assert config[..i] == config;
  }

  /** The channel build loop of the setup: one fresh channel entity per tracked channel name. */
  method BuildChannels(config: seq<string>, fetchChannel: string -> Option<Channel>)
    returns (cs: map<string, ReactionState>, order: seq<string>)
    ensures order == RegistryOrder(config, fetchChannel, ChannelKey)
    ensures forall k :: k in cs <==> k in Registry(config, fetchChannel, ChannelKey)
    ensures forall k :: k in cs ==>
      var c := Registry(config, fetchChannel, ChannelKey)[k];
      fresh(cs[k]) && cs[k].channelId == c.id && cs[k].channelName == c.name
      && cs[k].state == "unknown" && cs[k].lastUser == None
    ensures forall k1, k2 :: k1 in cs && k2 in cs && cs[k1] == cs[k2] ==> k1 == k2
  {
    cs, order := map[], [];
    ghost var registry: map<string, Channel> := map[];
    var i := 0;
    while i < |config|
      invariant 0 <= i <= |config|
      invariant registry == Registry(config[..i], fetchChannel, ChannelKey)
      invariant order == RegistryOrder(config[..i], fetchChannel, ChannelKey)
      invariant TracksChannels(cs, registry)
      invariant forall k :: k in cs ==> fresh(cs[k])
    {
      cs, order, registry := TrackChannel(config, fetchChannel, i, cs, order, registry);
      i := i + 1;
    }
    assert config[..i] == config;
  }

  class DiscordGame {
    const watchers: map<string, MemberState>
    const watcherOrder: seq<string>
    const channels: map<string, ReactionState>
    const channelOrder: seq<string>
    /** The Steam application list (`steam_app_list`). */
    var steamApps: seq<SteamApp>
    /** Every state refresh requested from the host, in order, by entity id. */
    var refreshes: seq<string>

    /** Registries as dicts: the order lists every key once, and distinct keys hold distinct
        entity objects. */
    ghost predicate Valid() {
      && Distinct(watcherOrder) && (forall k :: k in watchers <==> k in watcherOrder)
      && (forall k1, k2 :: k1 in watchers && k2 in watchers && watchers[k1] == watchers[k2] ==> k1 == k2)
      && Distinct(channelOrder) && (forall k :: k in channels <==> k in channelOrder)
      && (forall k1, k2 :: k1 in channels && k2 in channels && channels[k1] == channels[k2] ==> k1 == k2)
    }

    /** The build loops of the setup: one fresh member entity per tracked user name, created
        from the last configured entry fetch_user resolves to that name, and one fresh channel
        entity per tracked channel name likewise. */
    constructor (memberConfig: seq<string>, channelConfig: seq<string>,
                 fetchUser: string -> Option<User>, fetchChannel: string -> Option<Channel>)
      ensures Valid()
      ensures watcherOrder == RegistryOrder(memberConfig, fetchUser, UserKey)
      ensures forall k :: k in watchers ==>
        && k in Registry(memberConfig, fetchUser, UserKey)
        && var u := Registry(memberConfig, fetchUser, UserKey)[k];
           fresh(watchers[k]) && watchers[k].createdUserid == u.id
           && watchers[k].Snapshot() == InitialRecord(u.name, u.globalName, u.id)
      ensures channelOrder == RegistryOrder(channelConfig, fetchChannel, ChannelKey)
      ensures forall k :: k in channels ==>
        && k in Registry(channelConfig, fetchChannel, ChannelKey)
        && var c := Registry(channelConfig, fetchChannel, ChannelKey)[k];
           fresh(channels[k]) && channels[k].channelId == c.id && channels[k].channelName == c.name
           && channels[k].state == "unknown" && channels[k].lastUser == None
      ensures steamApps == [] && refreshes == []
    {
      var ws, order := BuildWatchers(memberConfig, fetchUser);
      var cs, corder := BuildChannels(channelConfig, fetchChannel);
      watchers, watcherOrder := ws, order;
      channels, channelOrder := cs, corder;
      steamApps, refreshes := [], [];
      RegistryOrderListsKeys(memberConfig, fetchUser, UserKey);
      RegistryOrderListsKeys(channelConfig, fetchChannel, ChannelKey);
    }

    // -------------------------------------------------------------------------------------
    // What the setup hands to the host.

    /** Whether the setup registers its entities and fires the setup-finished event that
        starts the client: only when at least one member is tracked. */
    predicate RegistersEntities() {
      |watcherOrder| > 0
    }

    function MemberEntityIds(keys: seq<string>): (ids: seq<string>)
      requires forall k :: k in keys ==> k in watchers
      ensures |ids| == |keys|
    {
      seq(|keys|, i requires 0 <= i < |keys| => watchers[keys[i]].EntityId())
    }

    function AllSensorIds(keys: seq<string>): (ids: seq<string>)
      requires forall k :: k in keys ==> k in watchers
      ensures |ids| == |keys| * |SENSORS|
      decreases |keys|
    {
      if keys == [] then [] else AllSensorIds(keys[..|keys| - 1]) + watchers[keys[|keys| - 1]].SensorIds()
    }

    function ChannelEntityIds(keys: seq<string>): (ids: seq<string>)
      requires forall k :: k in keys ==> k in channels
      ensures |ids| == |keys|
    {
      seq(|keys|, i requires 0 <= i < |keys| => channels[keys[i]].EntityId())
    }

    /** The entities added to the host, in order: the member entities, then each member's
        sub-sensors, then the channel entities; nothing when no member is tracked, even if
        channels are. */
    function RegisteredEntityIds(): (ids: seq<string>)
      requires Valid()
      ensures RegistersEntities() ==> |ids| == |watcherOrder| * (1 + |SENSORS|) + |channelOrder|
      ensures !RegistersEntities() ==> ids == []
    {
      if !RegistersEntities() then []
      else MemberEntityIds(watcherOrder) + AllSensorIds(watcherOrder) + ChannelEntityIds(channelOrder)
    }

    // -------------------------------------------------------------------------------------
    // Catalog and host primitives.

    /** The hourly catalog reload: the list is replaced as a whole. */
    method ReplaceSteamApps(apps: seq<SteamApp>)
      modifies this`steamApps
      ensures steamApps == apps
    {
      steamApps := apps;
    }

    /** `async_schedule_update_ha_state` on the entity with id `id`. */
    method RequestRefresh(id: string)
      modifies this`refreshes
      ensures refreshes == old(refreshes) + [id]
    {
      refreshes := refreshes + [id];
    }

    /** A refresh for each id of `ids`, in order. */
    method RequestRefreshes(ids: seq<string>)
      modifies this`refreshes
      ensures refreshes == old(refreshes) + ids
    {
      var i := 0;
      while i < |ids|
        invariant 0 <= i <= |ids|
        invariant refreshes == old(refreshes) + ids[..i]
      {
        RequestRefresh(ids[i]);
        assert ids[..i + 1] == ids[..i] + [ids[i]];
        i := i + 1;
      }
      assert ids[..i] == ids;
    }

    /** A refresh for every sub-sensor of a member entity, in creation order. */
    method RefreshSensors(w: MemberState)
      modifies this`refreshes
      ensures refreshes == old(refreshes) + w.SensorIds()
    {
      RequestRefreshes(w.SensorIds());
    }

    // -------------------------------------------------------------------------------------
    // Record updates.

    /** `load_game_image`: rich-presence images copied through, then the Steam images of the
        first catalog entry named `str(name)`, each written only when its probe answers true. */
    method LoadGameImage(w: MemberState, name: Option<string>, rich: Option<RichPresence>,
                         probe: string -> bool, now: nat)
      modifies w`game
      ensures w.game == EnrichGame(old(w.game), name, rich, steamApps, probe, now)
    {
      if rich.Some? {
        w.game := w.game.(imageSmall := rich.value.smallImageUrl, imageLarge := rich.value.largeImageUrl,
                          imageSmallText := rich.value.smallImageText, imageLargeText := rich.value.largeImageText);
      }
      var hits := SteamAppsNamed(steamApps, PyStr(name));
      if hits != [] {
        var steam := ProbeImages(w.game.steam, hits[0].appid, probe, now);
        w.game := w.game.(steam := steam);
      }
    }

    /** The ten probe-gated writes of `load_game_image` for catalog entry `appid`, the `.png`
        logo probed after the `.jpg` one. */
    static method ProbeImages(images: SteamImages, appid: nat, probe: string -> bool, now: nat)
      returns (steam: SteamImages)
      ensures steam == ProbeSteamImages(images, appid, probe, now)
    {
      var timestamp := now;
      var capsule231x87 := CandidateUrl(appid, Capsule231x87, timestamp);
      var capsule467x181 := CandidateUrl(appid, Capsule467x181, timestamp);
      var capsule616x353 := CandidateUrl(appid, Capsule616x353, timestamp);
      var header := CandidateUrl(appid, Header, timestamp);
      var heroCapsule := CandidateUrl(appid, HeroCapsule, timestamp);
      var library600x900 := CandidateUrl(appid, Library600x900, timestamp);
      var libraryHero := CandidateUrl(appid, LibraryHero, timestamp);
      var logo := CandidateUrl(appid, Logo, timestamp);
      var logoPng := LogoPngUrl(appid, timestamp);
      var pageBgRaw := CandidateUrl(appid, PageBgRaw, timestamp);
      steam := images;
      var image := ProbeImage(probe, capsule231x87, steam.capsule231x87);
      steam := steam.(capsule231x87 := image);
      image := ProbeImage(probe, capsule467x181, steam.capsule467x181);
      steam := steam.(capsule467x181 := image);
      image := ProbeImage(probe, capsule616x353, steam.capsule616x353);
      steam := steam.(capsule616x353 := image);
      image := ProbeImage(probe, header, steam.header);
      steam := steam.(header := image);
      image := ProbeImage(probe, heroCapsule, steam.heroCapsule);
      steam := steam.(heroCapsule := image);
      image := ProbeImage(probe, library600x900, steam.library600x900);
      steam := steam.(library600x900 := image);
      image := ProbeImage(probe, libraryHero, steam.libraryHero);
      steam := steam.(libraryHero := image);
      image := ProbeImage(probe, logo, steam.logo);
      steam := steam.(logo := image);
      image := ProbeImage(probe, logoPng, steam.logo);
      steam := steam.(logo := image);
      image := ProbeImage(probe, pageBgRaw, steam.pageBgRaw);
      steam := steam.(pageBgRaw := image);
    }

    /** One probe-gated write: the attribute takes `url` when the probe of `url` answers true. */
    static method ProbeImage(probe: string -> bool, url: string, previous: Option<string>)
      returns (image: Option<string>)
      ensures probe(url) ==> image == Some(url)
      ensures !probe(url) ==> image == previous
    {
      image := previous;
      if probe(url) {
        image := Some(url);
      }
    }

    /** The voice attributes filled from a voice state, each reset to None first. */
    static method FillVoice(v: Option<VoiceState>) returns (voice: VoiceSlot)
      ensures voice == VoiceBlock(v)
    {
      voice := NO_VOICE;
      if v.Some? {
        var state := v.value;
        if state.channel.Some? {
          voice := voice.(channel := Some(state.channel.value.name));
        } else {
          voice := voice.(channel := None);
        }
        voice := voice.(deaf := Some(state.deaf), mute := Some(state.mute),
                        selfDeaf := Some(state.selfDeaf), selfMute := Some(state.selfMute),
                        selfStream := Some(state.selfStream), selfVideo := Some(state.selfVideo),
                        afk := Some(state.afk));
      }
    }

    /** `update_discord_entity` up to the activity loop. */
    static method ResetFromMemberInPlace(w: MemberState, m: Member)
      modifies w
      ensures w.Snapshot() == ResetFromMember(old(w.Snapshot()), m)
    {
      w.state := m.status;
      w.roles := Some(RoleNames(m.roles));
      w.displayName := Some(m.displayName);
      w.activityState := None;
      w.game := NO_GAME;
      w.streaming := NO_LINK;
      w.listening := NO_LINK;
      w.spotify := NO_SPOTIFY;
      w.watching := NO_LINK;
      w.custom := NO_CUSTOM;
      w.voice := FillVoice(m.voice);
    }

    /** One turn of the activity loop for a playing activity. */
    method ApplyPlaying(w: MemberState, name: Option<string>, rich: Option<RichPresence>,
                        probe: string -> bool, now: nat)
      modifies w
      ensures w.Snapshot() == ApplyActivity(old(w.Snapshot()), Playing(name, rich), steamApps, probe, now)
    {
      LoadGameImage(w, name, rich, probe, now);
      w.game := w.game.(name := name);
      if rich.Some? {
        w.game := w.game.(state := rich.value.state, details := rich.value.details);
      }
    }

    /** One turn of the activity loop. */
    method ApplyActivityInPlace(w: MemberState, a: Activity, probe: string -> bool, now: nat)
      modifies w
      ensures w.Snapshot() == ApplyActivity(old(w.Snapshot()), a, steamApps, probe, now)
    {
      match a {
        case Playing(name, rich) =>
          ApplyPlaying(w, name, rich, probe, now);
        case Streaming(name, details, url) =>
          w.streaming := LinkSlot(name, details, url);
        case Spotify(title, artists, album, cover, trackId, duration, start, end) =>
          w.listening := w.listening.(name := Some(title));
          w.spotify := SpotifySlot(Some(Join(", ", artists)), Some(title), Some(album), Some(cover),
                                   Some(trackId), Some(duration), Some(start), Some(end));
        case Listening(name, state, details, url) =>
          w.activityState := state;
          w.listening := LinkSlot(name, details, url);
        case Watching(name, state, details, url) =>
          w.activityState := state;
          w.watching := LinkSlot(name, details, url);
        case Custom(name, state, emoji) =>
          w.activityState := state;
          w.custom := CustomSlot(name, emoji);
        case Unrecognized(_) =>
      }
    }

    /** `update_discord_entity`: the full recompute of a member record, then one refresh. */
    method UpdateDiscordEntity(w: MemberState, m: Member, probe: string -> bool, now: nat)
      modifies w, this`refreshes
      ensures w.Snapshot() == Recompute(old(w.Snapshot()), m, steamApps, probe, now)
      ensures refreshes == old(refreshes) + [w.EntityId()]
    {
      ResetFromMemberInPlace(w, m);
      ghost var reset := w.Snapshot();
      var i := 0;
      while i < |m.activities|
        invariant 0 <= i <= |m.activities|
        invariant w.Snapshot() == ApplyActivities(reset, m.activities[..i], steamApps, probe, now)
        invariant refreshes == old(refreshes)
      {
        ApplyActivityInPlace(w, m.activities[i], probe, now);
        assert m.activities[..i + 1][..i] == m.activities[..i];
        i := i + 1;
      }
      assert m.activities[..i] == m.activities;
      RequestRefresh(w.EntityId());
    }

    /** `update_discord_entity_user`: avatar, user id, name and global name, then one refresh. */
    method UpdateDiscordEntityUser(w: MemberState, u: User)
      modifies w, this`refreshes
      ensures w.Snapshot() == WithUser(old(w.Snapshot()), u)
      ensures refreshes == old(refreshes) + [w.EntityId()]
    {
      w.avatarUrl := Some(u.avatarUrl);
      w.userid := u.id;
      w.member := u.name;
      w.userName := u.globalName;
      RequestRefresh(w.EntityId());
    }

    // -------------------------------------------------------------------------------------
    // Event handlers.

    /** The record tracked under `key`, as a frame: empty when the key is not tracked. */
    function Tracked(key: string): set<MemberState> {
      if key in watchers then {watchers[key]} else {}
    }

    function TrackedChannel(key: string): set<ReactionState> {
      if key in channels then {channels[key]} else {}
    }


    /** `on_member_update`: the full recompute of the tracked member, then a refresh of every
        sub-sensor; nothing for an untracked member. */
    method OnMemberUpdate(after: Member, probe: string -> bool, now: nat)
      modifies this`refreshes, Tracked(after.key)
      ensures after.key !in watchers ==> refreshes == old(refreshes)
      ensures after.key in watchers ==>
        var w := watchers[after.key];
        && w.Snapshot() == Recompute(old(w.Snapshot()), after, steamApps, probe, now)
        && refreshes == old(refreshes) + [w.EntityId()] + w.SensorIds()
    {
      if after.key in watchers {
        var w := watchers[after.key];
        UpdateDiscordEntity(w, after, probe, now);
        RefreshSensors(w);
      }
    }

    /** `on_presence_update`: the same as `on_member_update`. */
    method OnPresenceUpdate(after: Member, probe: string -> bool, now: nat)
      modifies this`refreshes, Tracked(after.key)
      ensures after.key !in watchers ==> refreshes == old(refreshes)
      ensures after.key in watchers ==>
        var w := watchers[after.key];
        && w.Snapshot() == Recompute(old(w.Snapshot()), after, steamApps, probe, now)
        && refreshes == old(refreshes) + [w.EntityId()] + w.SensorIds()
    {
      if after.key in watchers {
        var w := watchers[after.key];
        UpdateDiscordEntity(w, after, probe, now);
        RefreshSensors(w);
      }
    }

    /** `on_user_update`: identity and avatar of the tracked user only, then a refresh of the
        entity and of every sub-sensor; nothing for an untracked user. */
    method OnUserUpdate(after: User)
      modifies this`refreshes, Tracked(after.key)
      ensures after.key !in watchers ==> refreshes == old(refreshes)
      ensures after.key in watchers ==>
        var w := watchers[after.key];
        && w.Snapshot() == WithUser(old(w.Snapshot()), after)
        && refreshes == old(refreshes) + [w.EntityId()] + w.SensorIds()
    {
      if after.key in watchers {
        var w := watchers[after.key];
        UpdateDiscordEntityUser(w, after);
        RefreshSensors(w);
      }
    }

    /** `on_voice_state_update`: the voice block of the tracked member only, then a refresh of
        the entity and of every sub-sensor; nothing for an untracked member. */
    method OnVoiceStateUpdate(memberKey: string, after: VoiceState)
      modifies this`refreshes, Tracked(memberKey)
      ensures memberKey !in watchers ==> refreshes == old(refreshes)
      ensures memberKey in watchers ==>
        var w := watchers[memberKey];
        && w.Snapshot() == WithVoice(old(w.Snapshot()), after)
        && refreshes == old(refreshes) + [w.EntityId()] + w.SensorIds()
    {
      if memberKey in watchers {
        var w := watchers[memberKey];
        w.voice := FillVoice(Some(after));
        RequestRefresh(w.EntityId());
        RefreshSensors(w);
      }
    }

    /** `on_raw_reaction_add`: the tracked channel's state and last user become the reacting
        member's display name, then one refresh; nothing for an untracked channel. */
    method OnRawReactionAdd(channelKey: string, reactorDisplayName: string)
      modifies this`refreshes, TrackedChannel(channelKey)
      ensures channelKey !in channels ==> refreshes == old(refreshes)
      ensures channelKey in channels ==>
        var c := channels[channelKey];
        && c.state == reactorDisplayName && c.lastUser == Some(reactorDisplayName)
        && refreshes == old(refreshes) + [c.EntityId()]
    {
      if channelKey in channels {
        var c := channels[channelKey];
        c.state := reactorDisplayName;
        c.lastUser := Some(reactorDisplayName);
        RequestRefresh(c.EntityId());
      }
    }

    /** The refresh `on_ready` requests for a record whose user is cached. */
    function UserReadyRefreshes(w: MemberState, u: Option<User>): seq<string> {
      if u.Some? then [w.EntityId()] else []
    }

    /** The refreshes `on_ready` requests for a record whose member is cached. */
    function MemberReadyRefreshes(w: MemberState, m: Option<Member>): seq<string> {
      if m.Some? then [w.EntityId()] + w.SensorIds() else []
    }

    /** The refreshes `on_ready` requests for one tracked key. */
    function KeyReadyRefreshes(k: string, users: map<string, User>, members: map<string, Member>): seq<string>
      requires k in watchers
    {
      UserReadyRefreshes(watchers[k], Lookup(users, k)) + MemberReadyRefreshes(watchers[k], Lookup(members, k))
    }

    function WatcherReadyRefreshes(keys: seq<string>, users: map<string, User>, members: map<string, Member>): seq<string>
      requires forall k :: k in keys ==> k in watchers
      decreases |keys|
    {
      if keys == [] then []
      else WatcherReadyRefreshes(keys[..|keys| - 1], users, members)
           + KeyReadyRefreshes(keys[|keys| - 1], users, members)
    }

    /** All refreshes of `on_ready`: per tracked key in dict order, then every channel. */
    function ReadyRefreshes(users: map<string, User>, members: map<string, Member>): seq<string>
      requires Valid()
    {
      WatcherReadyRefreshes(watcherOrder, users, members) + ChannelEntityIds(channelOrder)
    }

    /** The user half of `on_ready` for one record. */
    method ReadyUser(w: MemberState, u: Option<User>)
      modifies w, this`refreshes
      ensures w.Snapshot() == ReadyUserStep(old(w.Snapshot()), u)
      ensures refreshes == old(refreshes) + UserReadyRefreshes(w, u)
    {
      if u.Some? {
        UpdateDiscordEntityUser(w, u.value);
      }
    }

    /** The member half of `on_ready` for one record. */
    method ReadyRecompute(w: MemberState, m: Option<Member>, probe: string -> bool, now: nat)
      modifies w, this`refreshes
      ensures w.Snapshot() == ReadyMemberStep(old(w.Snapshot()), m, steamApps, probe, now)
      ensures refreshes == old(refreshes) + MemberReadyRefreshes(w, m)
    {
      if m.Some? {
        ghost var log := refreshes;
        UpdateDiscordEntity(w, m.value, probe, now);
        RefreshSensors(w);
        AppendAssociates(log, [w.EntityId()], w.SensorIds());
      }
    }

    /** `on_ready` for one tracked key. */
    method ReadyMember(name: string, users: map<string, User>, members: map<string, Member>,
                       probe: string -> bool, now: nat, ghost before: Record)
      requires Valid() && name in watchers && watchers[name].Snapshot() == before
      modifies this`refreshes, watchers[name]
      ensures forall k :: k in watchers && k != name ==> watchers[k].Snapshot() == old(watchers[k].Snapshot())
      ensures watchers[name].Snapshot()
              == ReadyRecord(before, Lookup(users, name), Lookup(members, name), steamApps, probe, now)
      ensures refreshes == old(refreshes) + KeyReadyRefreshes(name, users, members)
    {
      var w := watchers[name];
      ghost var log := refreshes;
      ReadyUser(w, Lookup(users, name));
      ReadyRecompute(w, Lookup(members, name), probe, now);
      AppendAssociates(log, UserReadyRefreshes(w, Lookup(users, name)), MemberReadyRefreshes(w, Lookup(members, name)));
    }

    /** A refresh for every channel entity under `keys`, in order. */
    method RefreshChannels(keys: seq<string>)
      requires forall k :: k in keys ==> k in channels
      modifies this`refreshes
      ensures refreshes == old(refreshes) + ChannelEntityIds(keys)
    {
      var j := 0;
      while j < |keys|
        invariant 0 <= j <= |keys|
        invariant refreshes == old(refreshes) + ChannelEntityIds(keys[..j])
      {
        RequestRefresh(channels[keys[j]].EntityId());
        assert ChannelEntityIds(keys[..j + 1]) == ChannelEntityIds(keys[..j]) + [channels[keys[j]].EntityId()];
        j := j + 1;
      }
      assert keys[..j] == keys;
    }

    /** `target` holds, for every key of `start`, the record `on_ready` makes of the record
        `start` holds under that key. */
    ghost predicate ReadyTargets(start: map<string, Record>, target: map<string, Record>, users: map<string, User>,
                                 members: map<string, Member>, probe: string -> bool, now: nat)
      reads this
    {
      && start.Keys == target.Keys
      && forall k {:trigger ReadyRecord(start[k], Lookup(users, k), Lookup(members, k), steamApps, probe, now)} ::
           k in start ==> target[k] == ReadyRecord(start[k], Lookup(users, k), Lookup(members, k), steamApps, probe, now)
    }

    ghost function ReadyTargetMap(start: map<string, Record>, users: map<string, User>, members: map<string, Member>,
                                  probe: string -> bool, now: nat): (target: map<string, Record>)
      reads this
      ensures ReadyTargets(start, target, users, members, probe, now)
    {
      map k | k in start :: ReadyRecord(start[k], Lookup(users, k), Lookup(members, k), steamApps, probe, now)
    }

    /** `on_ready` for one tracked key, stated against precomputed targets. */
    method ReadyMemberTo(name: string, users: map<string, User>, members: map<string, Member>,
                         probe: string -> bool, now: nat, ghost start: map<string, Record>, ghost target: map<string, Record>)
      requires Valid() && name in watchers && name in start && watchers[name].Snapshot() == start[name]
      requires ReadyTargets(start, target, users, members, probe, now)
      modifies this`refreshes, watchers[name]
      ensures forall k :: k in watchers && k != name ==> watchers[k].Snapshot() == old(watchers[k].Snapshot())
      ensures watchers[name].Snapshot() == target[name]
      ensures refreshes == old(refreshes) + KeyReadyRefreshes(name, users, members)
    {
      ReadyMember(name, users, members, probe, now, start[name]);
    }

    /** One turn of the member loop of `on_ready`: the `i`-th tracked key in dict order, whose
        record still holds its value in `start` from before the loop, gets its value in
        `target`; `done` holds the keys already visited and `log` the refreshes before the loop. */
    method ReadyNext(i: nat, ghost done: set<string>, ghost start: map<string, Record>, ghost target: map<string, Record>,
                     ghost log: seq<string>, users: map<string, User>, members: map<string, Member>,
                     probe: string -> bool, now: nat)
      returns (i': nat, ghost done': set<string>)
      requires Valid() && i < |watcherOrder|
      requires forall k :: k in watchers ==> k in start
      requires ReadyTargets(start, target, users, members, probe, now)
      requires refreshes == log + WatcherReadyRefreshes(watcherOrder[..i], users, members)
      requires forall j :: 0 <= j < i ==> watcherOrder[j] in done
      requires forall j :: i <= j < |watcherOrder| ==> watcherOrder[j] !in done
      requires forall k :: k in watchers && k in done ==> watchers[k].Snapshot() == target[k]
      requires forall k :: k in watchers && k !in done ==> watchers[k].Snapshot() == start[k]
      modifies this`refreshes, watchers[watcherOrder[i]]
      ensures i' == i + 1
      ensures refreshes == log + WatcherReadyRefreshes(watcherOrder[..i'], users, members)
      ensures forall j :: 0 <= j < i' ==> watcherOrder[j] in done'
      ensures forall j :: i' <= j < |watcherOrder| ==> watcherOrder[j] !in done'
      ensures forall k :: k in watchers && k in done' ==> watchers[k].Snapshot() == target[k]
      ensures forall k :: k in watchers && k !in done' ==> watchers[k].Snapshot() == start[k]
    {
      var name := watcherOrder[i];
      assert watcherOrder[..i + 1][..i] == watcherOrder[..i];
      ReadyMemberTo(name, users, members, probe, now, start, target);
      AppendAssociates(log, WatcherReadyRefreshes(watcherOrder[..i], users, members), KeyReadyRefreshes(name, users, members));
      done' := done + {name};
      i' := i + 1;
    }

    /** The member loop of `on_ready`, over the tracked keys in dict order: every record
        moves from its value in `start` to its value in `target`. */
    method ReadyLoop(ghost start: map<string, Record>, ghost target: map<string, Record>,
                     users: map<string, User>, members: map<string, Member>, probe: string -> bool, now: nat)
      requires Valid()
      requires forall k :: k in watchers ==> k in start && watchers[k].Snapshot() == start[k]
      requires ReadyTargets(start, target, users, members, probe, now)
      modifies this`refreshes, watchers.Values
      ensures forall k :: k in watchers ==> watchers[k].Snapshot() == target[k]
      ensures refreshes == old(refreshes) + WatcherReadyRefreshes(watcherOrder, users, members)
    {
      ghost var done: set<string> := {};
      var i := 0;
      while i < |watcherOrder|
        invariant 0 <= i <= |watcherOrder|
        invariant refreshes == old(refreshes) + WatcherReadyRefreshes(watcherOrder[..i], users, members)
        invariant forall j :: 0 <= j < i ==> watcherOrder[j] in done
        invariant forall j :: i <= j < |watcherOrder| ==> watcherOrder[j] !in done
        invariant forall k :: k in watchers && k in done ==> watchers[k].Snapshot() == target[k]
        invariant forall k :: k in watchers && k !in done ==> watchers[k].Snapshot() == start[k]
      {
        i, done := ReadyNext(i, done, start, target, old(refreshes), users, members, probe, now);
      }
      assert watcherOrder[..i] == watcherOrder;
    }

    /** The member loop of `on_ready`, stated against the records before it. */
    method ReadyAllMembers(users: map<string, User>, members: map<string, Member>, probe: string -> bool, now: nat)
      requires Valid()
      modifies this`refreshes, watchers.Values
      ensures forall k :: k in watchers ==>
        watchers[k].Snapshot()
        == ReadyRecord(old(watchers[k].Snapshot()), Lookup(users, k), Lookup(members, k), steamApps, probe, now)
      ensures refreshes == old(refreshes) + WatcherReadyRefreshes(watcherOrder, users, members)
    {
      ghost var start := map k | k in watchers :: watchers[k].Snapshot();
      ghost var target := ReadyTargetMap(start, users, members, probe, now);
      ReadyLoop(start, target, users, members, probe, now);
    }

    /** `on_ready`: every tracked record gets the user update when its key is in the user
        cache and the full recompute when it is in the member cache; then every channel
        entity is refreshed. */
    method OnReady(users: map<string, User>, members: map<string, Member>, probe: string -> bool, now: nat)
      requires Valid()
      modifies this`refreshes, watchers.Values
      ensures forall k :: k in watchers ==>
        watchers[k].Snapshot()
        == ReadyRecord(old(watchers[k].Snapshot()), Lookup(users, k), Lookup(members, k), steamApps, probe, now)
      ensures refreshes == old(refreshes) + ReadyRefreshes(users, members)
    {
      ReadyAllMembers(users, members, probe, now);
      RefreshChannels(channelOrder);
      AppendAssociates(old(refreshes), WatcherReadyRefreshes(watcherOrder, users, members), ChannelEntityIds(channelOrder));
    }

    /** With every tracked key in both caches, `on_ready` requests 2 + |SENSORS| refreshes per
        tracked member and one per channel. */
    lemma {:induction false} ReadyRefreshCount(users: map<string, User>, members: map<string, Member>)
      requires Valid()
      requires forall k :: k in watchers ==> k in users && k in members
      ensures |ReadyRefreshes(users, members)| == |watcherOrder| * (2 + |SENSORS|) + |channelOrder|
    {
      WatcherReadyRefreshCount(watcherOrder, users, members);
    }

    lemma {:induction false} WatcherReadyRefreshCount(keys: seq<string>, users: map<string, User>, members: map<string, Member>)
      requires forall k :: k in keys ==> k in watchers && k in users && k in members
      ensures |WatcherReadyRefreshes(keys, users, members)| == |keys| * (2 + |SENSORS|)
      decreases |keys|
    {
      if keys != [] {
        WatcherReadyRefreshCount(keys[..|keys| - 1], users, members);
      }
    }
  }
}
