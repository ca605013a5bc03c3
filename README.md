# discord_game presence engine in Dafny

This project models the presence-record update engine of the `discord_game` Home Assistant
integration. The engine lives in `custom_components/discord_game/sensor.py`, where
`async_setup_entry` does three things:
- It builds two registries from the configured ids. `watchers` holds one
  `DiscordAsyncMemberState` per tracked user. `channels` holds one `DiscordAsyncReactionState`
  per tracked channel.
- It registers the entities with the host.
- It installs the chat client's event handlers. These rewrite the attribute records in place
  and ask the host to refresh entity states.

The Dafny modules follow that structure:

- `Wrappers`: `Option`, the model of Python's `None`.
- `Text`: `str(n)` for non-negative integers, proved injective and inverted by a parser, and
  `", ".join(...)`.
- `Discord`: the objects the handlers read: users, members, voice states, activities,
  channels and Steam catalog entries.
- `Naming`: the derived names:
  - the entity ids `sensor.discord_user_<id>`, `..._<attr>` and `sensor.discord_channel_<id>`;
  - the 47 sub-sensor attributes, the constant `SENSORS` (sensor.py:38-45);
  - the sub-sensor names;
  - the Steam CDN candidate URLs;
  - the `^\d{,20}` guard applied to configured entries.
- `Records`: the attribute record of a member as a value (`Record`), and what each handler
  does to it as functions: full recompute, user update, voice update, activity loop,
  game-image enrichment and one record's share of `on_ready`. The lemmas state what these
  functions guarantee.
- `Entities`: the classes `MemberState` (the record, with its fields updated in place) and
  `ReactionState` (a channel record).
- `Integration`: the registry build loops and the class `DiscordGame`. `DiscordGame` holds
  the setup's environment: the registries and their dict order, the Steam catalog, and the
  log of requested refreshes. Every handler is a method, proved against the functions of
  `Records`.

Some things outside the core are passed in as parameters:
- The HTTP existence probe (`check_resource_exists`) is a parameter `probe: string -> bool`.
- The current time used in the URLs is a parameter `now`.
- `bot.fetch_user` and `bot.fetch_channel` are parameters that return an `Option`.
- The client's user and member caches passed to `on_ready` are maps keyed by `"{}".format(...)`.

Every `async_schedule_update_ha_state` call appends an entity id to `refreshes`, so the
contracts state exactly which refreshes each handler requests, and in which order.

Behaviours of the code that are easy to miss:
- `on_ready` requests more than one refresh per tracked identity. It requests one for the user
  update, and one plus one per sub-sensor (47) for the member update, for each key found in
  those caches. It then requests one refresh per channel. `ReadyRefreshCount` states the
  total.
- The regular expression `^\d{,20}` used as a guard matches every string, because it may
  match zero digits. So every configured entry is fetched (`SnowflakePrefixAlwaysMatches`).
- There is one catalog, Steam's application list, replaced as a whole by the hourly reload.
- The game slot merges across playing activities. A bare `Game` after a rich-presence
  activity replaces the game's name but keeps the state, details and images written before
  (`GameSlotMergesAcrossActivities`). Likewise a Spotify activity after a plain listening
  activity replaces `listening` but keeps `listening_details` and `listening_url`
  (`ListeningSlotMergesWithSpotify`).
- Each enrichment reads the clock, and the Steam image URLs carry that timestamp. So a
  repeated ready event, or a repeated member update, can rewrite the Steam image attributes
  with a new timestamp. Everything else is left as it was (`RecomputeAgain`,
  `ReadyRecordAgain`).

## Model

| member | source | states |
|---|---|---|
| Text.Decimal | custom_components/discord_game/sensor.py:434 | `str(n)` is a non-empty digit string, with a leading zero only for 0, of length one exactly for n < 10 |
| Text.DecimalRoundTrip | custom_components/discord_game/sensor.py:434 | reading the decimal numeral of n back gives n |
| Text.DecimalInjective | custom_components/discord_game/sensor.py:459 | distinct ids print distinctly |
| Text.CanonicalNumeralRoundTrip | custom_components/discord_game/sensor.py:434 | every digit string without a leading zero is what `str` prints for its value |
| Text.DigitRunLength | custom_components/discord_game/sensor.py:356 | the length of the longest all-digit prefix: the prefix is digits and the next character is not |
| Text.DigitRunsSplit | custom_components/discord_game/sensor.py:529 | two digit runs followed by the same non-digit separator are equal, and so are the tails |
| Text.JoinShape | custom_components/discord_game/sensor.py:183 | `sep.join(parts)` is empty for no parts; otherwise its length is the parts plus one separator between each two, and it starts with the first part |
| Discord.LastWhere | custom_components/discord_game/sensor.py:164-210 | the last activity that satisfies a test: it is at some position of the list, satisfies the test, and no later activity does; None means no activity does |
| Naming.SensorName | custom_components/discord_game/sensor.py:546 | a sub-sensor's name is the member name, a space, then the attribute, which is the whole rest of the name |
| Naming.SensorEntityIds | custom_components/discord_game/sensor.py:435-438 | one sub-sensor id per SENSORS entry, in SENSORS order, each `sensor.discord_user_<id>_<attr>` |
| Naming.UserEntityIdInjective | custom_components/discord_game/sensor.py:434 | member entity ids of distinct user ids differ |
| Naming.SensorEntityIdInjective | custom_components/discord_game/sensor.py:529 | a sub-sensor id determines both the user id and the attribute |
| Naming.SensorEntityIdIsNotUserEntityId | custom_components/discord_game/sensor.py:529 | no sub-sensor id equals any member entity id |
| Naming.ChannelEntityIdIsNotMemberId | custom_components/discord_game/sensor.py:572 | a channel entity id is never a member entity id or a sub-sensor id |
| Naming.ChannelEntityIdInjective | custom_components/discord_game/sensor.py:572 | channel entity ids of distinct channel ids differ |
| Naming.SteamImageUrlInjective | custom_components/discord_game/sensor.py:232-252 | under one timestamp, a candidate URL determines the app id and the file |
| Naming.CandidateFilesDistinct | custom_components/discord_game/sensor.py:233-252 | the nine `.jpg` file names are pairwise distinct and differ from `logo.png` |
| Naming.SnowflakePrefixAlwaysMatches | custom_components/discord_game/sensor.py:356 | `re.match(r"^\d{,20}", s)` always matches; the match is a prefix of at most 20 digits that stops at a non-digit or after 20 digits |
| Records.InitialRecordIsBlank | custom_components/discord_game/sensor.py:380-433 | a new record has the given name, user name and id, state and activity state "unknown", and every other attribute None |
| Records.UserUpdateSensorValues | custom_components/discord_game/sensor.py:214-218 | after a user update, only the `user_name` and `avatar_url` sub-sensors (of those `getattr` reads at line 537) show new values: the global name and the avatar URL |
| Records.VoiceUpdateSensorValues | custom_components/discord_game/sensor.py:328-338 | after a voice update, no sub-sensor except the voice ones (of those `getattr` reads at line 537) shows a new value |
| Records.VoiceBlock | custom_components/discord_game/sensor.py:143-162 | without a voice state, all eight voice attributes are None; otherwise the channel's name (None without a channel) and the seven flags copied |
| Records.SteamAppsNamedFilters | custom_components/discord_game/sensor.py:228 | the filter keeps only entries named exactly `str(name)`; it is empty only when no entry has that name; its head is the first that does |
| Records.FindSteamAppFirstMatch | custom_components/discord_game/sensor.py:228-230 | the lookup finds nothing exactly when no catalog entry has the name, and otherwise the app id of the first one that does |
| Records.ProbeSteamImagesGates | custom_components/discord_game/sensor.py:254-273 | each image other than the logo takes its candidate URL exactly when that URL's probe says yes; the logo takes the `.png` URL if that probe says yes, else the `.jpg` URL if that one does, else keeps its value |
| Records.EnrichGameSlots | custom_components/discord_game/sensor.py:223-230 | enrichment copies the rich-presence images only when the activity has them; it leaves the Steam images alone without a catalog hit; it leaves name, state and details alone |
| Records.EnrichGameWritesOnlyProbedImages | custom_components/discord_game/sensor.py:228-273 | a Steam image that changes holds a candidate URL of a catalog entry with the activity's name, and the probe said yes to that URL |
| Records.ActivitiesKeepOtherAttributes | custom_components/discord_game/sensor.py:164-210 | the activity loop writes no identity, status, role, display-name or voice attribute |
| Records.ActivityWritesOwnSlot | custom_components/discord_game/sensor.py:165-210 | one activity sets its own kind's name attribute (a Spotify activity: its title), leaves the other kinds' name attributes alone, and writes the streaming, watching and custom slots whole |
| Records.LastActivityOfKindWins | custom_components/discord_game/sensor.py:164-210 | after the loop, each kind's name attribute holds what the last activity of that kind wrote, and is untouched when the list has none of that kind |
| Records.ActivityKeepsOtherSlots | custom_components/discord_game/sensor.py:165-210 | an activity leaves every attribute of the other kinds' slots alone |
| Records.SlotWithoutActivityUntouched | custom_components/discord_game/sensor.py:164-210 | a slot that no activity in the list belongs to keeps all its attributes |
| Records.SpotifyAndActivityState | custom_components/discord_game/sensor.py:179-210 | the Spotify attributes are the last Spotify activity's, with artists joined by ", "; `activity_state` is the state of the last listening, watching or custom activity; each is untouched without such an activity |
| Records.UnrecognizedActivitiesIgnored | custom_components/discord_game/sensor.py:164-210 | an activity of any other type changes nothing |
| Records.RoleNamesInOrder | custom_components/discord_game/sensor.py:105 | the role names are the members' roles' names, one per role, in order |
| Records.RecomputeSetsPresence | custom_components/discord_game/sensor.py:103-210 | after a full recompute: state, roles, display name and voice come from the member; identity and avatar are kept; each slot's name attribute is what the last activity of its kind wrote; a kind with no activity leaves its whole slot None, and `activity_state` is None when no activity sets it; the Steam images are None when no playing activity has a catalog hit; the game state, details and rich-presence images are None when every playing activity is a bare `Game`; `listening_details` and `listening_url` are None when there is no plain listening activity; the Spotify attributes are the last Spotify activity's, with artists joined by ", ", and all None when there is no Spotify activity, even beside a plain listening activity |
| Records.RecomputeAgain | custom_components/discord_game/sensor.py:103-232 | recomputing again from the same member, under any probe and clock, gives what one recompute under that probe and clock gives; two recomputes from one record differ at most in the Steam images |
| Records.ActivitySameButSteam | custom_components/discord_game/sensor.py:164-232 | one activity applied to records equal outside the Steam images, under any two probes and clocks, gives records equal outside the Steam images |
| Records.ActivitiesSameButSteam | custom_components/discord_game/sensor.py:164-232 | the probe and the clock reach the activity loop's result only through the Steam images |
| Records.SteamImagesNeedCatalogHit | custom_components/discord_game/sensor.py:164-230 | without a catalog hit for any playing activity, the loop leaves the Steam images alone |
| Records.RichAttributesNeedRichPresence | custom_components/discord_game/sensor.py:164-176 | when every playing activity is a bare `Game`, the loop leaves the game state, details and rich-presence images alone |
| Records.ListeningExtrasNeedListening | custom_components/discord_game/sensor.py:179-196 | without a plain listening activity, the loop leaves `listening_details` and `listening_url` alone |
| Records.ActivitySteamImage | custom_components/discord_game/sensor.py:164-273 | one activity either keeps a Steam image or writes a candidate URL of its own first catalog hit that the probe said yes to |
| Records.SteamImagesFromProbedHits | custom_components/discord_game/sensor.py:164-273 | after the loop, each Steam image is the one before it, or a candidate URL of some playing activity's first catalog hit that the probe said yes to |
| Records.RecomputeSteamImagesProbed | custom_components/discord_game/sensor.py:103-273 | after a full recompute, every Steam image that is set is a candidate URL of some playing activity's first catalog hit that the probe said yes to |
| Records.GameSlotMergesAcrossActivities | custom_components/discord_game/sensor.py:164-176 | a playing activity with rich presence, then a bare `Game`: the game name is the second's, while state, details and images are the first's |
| Records.ListeningSlotMergesWithSpotify | custom_components/discord_game/sensor.py:179-196 | a plain listening activity, then a Spotify activity: `listening` is the track title, while `listening_details` and `listening_url` are the first's |
| Records.ActivitiesCommuteWithUser | custom_components/discord_game/sensor.py:164-219 | the activity loop and the user update touch disjoint attributes |
| Records.RecomputeCommutesWithUser | custom_components/discord_game/sensor.py:103-219 | the full recompute and the user update commute |
| Records.VoiceUpdateTouchesOnlyVoice | custom_components/discord_game/sensor.py:324-338 | a voice update changes the voice block only, and a later full recompute overrides it |
| Records.ReadyRecordAgain | custom_components/discord_game/sensor.py:286-292 | a second ready event with the same caches, under any probe and clock, gives what one ready event under that probe and clock gives; it differs from the first one's result at most in the Steam images, and not at all under the same probe and clock |
| Discord.KindOf | custom_components/discord_game/sensor.py:164-206 | the `activity.type` dispatch: the slot an activity fills, a Spotify activity filling the listening slot, None for a type the loop skips |
| Discord.SetsActivityState | custom_components/discord_game/sensor.py:164-206 | the branches that write `activity_state`: plain listening, watching and custom |
| Discord.LastOfKind | custom_components/discord_game/sensor.py:164-206 | the last activity of the list that fills a given slot |
| Records.PyStr | custom_components/discord_game/sensor.py:228 | `str(activity.name)`: the name itself, or "None" when the activity has no name |
| Records.Gate | custom_components/discord_game/sensor.py:254-273 | one probe-gated write: the URL when the probe says yes, else the previous value |
| Records.CandidateUrl | custom_components/discord_game/sensor.py:233-252 | the `.jpg` candidate URL of one image kind of an app, with the timestamp |
| Records.LogoPngUrl | custom_components/discord_game/sensor.py:233-252 | the `.png` candidate URL of the logo |
| Records.ReadyUserStep | custom_components/discord_game/sensor.py:287-288 | the user update exactly when the user is cached (`is not None`) |
| Records.ReadyMemberStep | custom_components/discord_game/sensor.py:289-292 | the full recompute exactly when the member is cached (`is not None`) |
| Records.InitialRecord | custom_components/discord_game/sensor.py:380-433 | the record of a new member entity: name, user name and id given, state and activity state "unknown", everything else None |
| Records.ResetFromMember | custom_components/discord_game/sensor.py:104-162 | the first part of a full recompute: state, role names, display name and voice block from the member, activity state and every activity slot cleared |
| Records.ApplyActivity | custom_components/discord_game/sensor.py:164-210 | one turn of the activity loop, one branch per activity type; a playing activity is first enriched |
| Records.ApplyActivities | custom_components/discord_game/sensor.py:164-210 | the activity loop over the member's activities, in order |
| Records.EnrichGame | custom_components/discord_game/sensor.py:221-273 | `load_game_image`: copy the rich-presence images when present, then probe the Steam images of the first catalog hit |
| Records.ProbeSteamImages | custom_components/discord_game/sensor.py:254-273 | the ten probe-gated writes of the Steam images, the logo tried as `.png` then `.jpg` |
| Records.SteamAppsNamed | custom_components/discord_game/sensor.py:228 | the catalog entries whose name equals `str(activity.name)`, in catalog order |
| Records.FindSteamApp | custom_components/discord_game/sensor.py:228-230 | the app id of the first such entry, if any |
| Records.WithUser | custom_components/discord_game/sensor.py:214-218 | the user update: avatar URL, id, name and global name from the user |
| Records.WithVoice | custom_components/discord_game/sensor.py:328-338 | the voice update: the voice block from the new voice state |
| Records.Recompute | custom_components/discord_game/sensor.py:103-212 | the full recompute: the reset from the member, then the activity loop |
| Records.ReadyRecord | custom_components/discord_game/sensor.py:286-292 | one record's share of `on_ready`: the user update if the user is cached, then the recompute if the member is cached |
| Records.RoleNames | custom_components/discord_game/sensor.py:105 | the names of the member's roles, in order |
| Records.SensorValue | custom_components/discord_game/sensor.py:537 | the attribute a sub-sensor reads with `getattr`, None for a name outside SENSORS |
| Naming.UserEntityId | custom_components/discord_game/sensor.py:434 | `sensor.discord_user_<id>` |
| Naming.SensorEntityId | custom_components/discord_game/sensor.py:529 | `sensor.discord_user_<id>_<attr>` |
| Naming.ChannelEntityId | custom_components/discord_game/sensor.py:572 | `sensor.discord_channel_<id>` |
| Naming.SteamImageUrl | custom_components/discord_game/sensor.py:233-252 | the Steam CDN URL of an app's image file, with the timestamp as query |
| Naming.SnowflakePrefixMatch | custom_components/discord_game/sensor.py:356 | what `re.match(r"^\d{,20}", s)` matches |
| Text.Join | custom_components/discord_game/sensor.py:183 | `sep.join(parts)` |
| Integration.Registry | custom_components/discord_game/sensor.py:354-369 | the registry the build loop leaves: each key maps to the object of the last entry resolving to it |
| Integration.RegistryOrder | custom_components/discord_game/sensor.py:354-369 | the dict order of that registry: keys in order of first insertion |
| Integration.DiscordGame.ReadyRefreshes | custom_components/discord_game/sensor.py:286-294 | the refreshes `on_ready` requests: each tracked key's, in dict order, then one per channel |
| Integration.DiscordGame.UserReadyRefreshes | custom_components/discord_game/sensor.py:287-288 | one refresh of the entity when the user is cached |
| Integration.DiscordGame.MemberReadyRefreshes | custom_components/discord_game/sensor.py:289-292 | the entity, then every sub-sensor, when the member is cached |
| Integration.DiscordGame.KeyReadyRefreshes | custom_components/discord_game/sensor.py:286-292 | one key's user refreshes, then its member refreshes |
| Integration.DiscordGame.WatcherReadyRefreshes | custom_components/discord_game/sensor.py:286-292 | the keys' refreshes, in the given order |
| Entities.MemberState.constructor | custom_components/discord_game/sensor.py:380-438 | a new member record holds the initial record, and its entity ids derive from the given user id |
| Entities.MemberState.SensorIds | custom_components/discord_game/sensor.py:435-438 | one sub-sensor id per SENSORS entry |
| Entities.MemberState.SensorIdsExcludeEntityId | custom_components/discord_game/sensor.py:434 | no sub-sensor id equals the record's entity id |
| Entities.MemberState.EntityId | custom_components/discord_game/sensor.py:434 | the entity id fixed at creation: `sensor.discord_user_<id>` of the user id given to the constructor |
| Entities.MemberState.Name | custom_components/discord_game/sensor.py:461-463 | the `name` property: the member's user name, also its registry key |
| Entities.MemberState.UniqueId | custom_components/discord_game/sensor.py:457-459 | the `unique_id` property: the entity id format applied to the current user id |
| Entities.ReactionState.EntityId | custom_components/discord_game/sensor.py:572 | `sensor.discord_channel_<id>`, the channel entity's id |
| Entities.ReactionState.Name | custom_components/discord_game/sensor.py:587-589 | the `name` property: the channel's name, also its registry key |
| Entities.ReactionState.constructor | custom_components/discord_game/sensor.py:565-572 | a new channel record has the channel's name and id, state "unknown" and no last user |
| Integration.RegistryOrderListsKeys | custom_components/discord_game/sensor.py:354-369 | the dict order lists every registry key exactly once |
| Integration.RegistryTracksResolvedEntries | custom_components/discord_game/sensor.py:354-361 | a key is tracked exactly when some configured entry resolves to an object with that key |
| Integration.RegistryKeepsLastEntry | custom_components/discord_game/sensor.py:361 | a key's object comes from the last configured entry that resolves to that key |
| Integration.Lookup | custom_components/discord_game/sensor.py:287-289 | `dict.get`: Some exactly when the key is present, holding its value |
| Integration.RegistryStepResolved | custom_components/discord_game/sensor.py:355-361 | an entry that resolves stores its object under its key; a new key joins the end of the order and an old key keeps its place |
| Integration.RegistryStepUnresolved | custom_components/discord_game/sensor.py:355-358 | an entry that does not resolve changes neither registry nor order |
| Integration.TrackMember | custom_components/discord_game/sensor.py:355-361 | one turn of the member build loop keeps the entities tracking the registry: one entity per key, made from that key's user, none shared |
| Integration.TrackChannel | custom_components/discord_game/sensor.py:364-369 | one turn of the channel build loop keeps the channel entities tracking the registry |
| Integration.BuildWatchers | custom_components/discord_game/sensor.py:354-361 | `watchers` holds one fresh entity per user key the configured entries resolve to, each made from that key's user, in dict order |
| Integration.BuildChannels | custom_components/discord_game/sensor.py:363-369 | `channels` holds one fresh channel entity per channel key the configured entries resolve to, in dict order |
| Integration.DiscordGame.constructor | custom_components/discord_game/sensor.py:354-369 | after setup, the registries are the build loops' results, keys are distinct, no entity is shared, no refresh has been requested |
| Integration.DiscordGame.MemberEntityIds | custom_components/discord_game/sensor.py:372 | one entity id per tracked member, in dict order |
| Integration.DiscordGame.AllSensorIds | custom_components/discord_game/sensor.py:373-374 | 47 sub-sensor ids per tracked member |
| Integration.DiscordGame.ChannelEntityIds | custom_components/discord_game/sensor.py:375 | one entity id per tracked channel, in dict order |
| Integration.DiscordGame.RegistersEntities | custom_components/discord_game/sensor.py:371 | the `len(watchers) > 0` guard: entities are registered only when a member is tracked |
| Integration.DiscordGame.RegisteredEntityIds | custom_components/discord_game/sensor.py:371-376 | with at least one tracked member, members, then their sub-sensors, then channels are registered (48 per member plus one per channel); with none, nothing is, not even channels |
| Integration.DiscordGame.ReplaceSteamApps | custom_components/discord_game/sensor.py:95 | the reload replaces the catalog as a whole |
| Integration.DiscordGame.RequestRefresh | custom_components/discord_game/sensor.py:212 | one refresh is appended to the log |
| Integration.DiscordGame.RequestRefreshes | custom_components/discord_game/sensor.py:291-292 | one refresh per id, in order |
| Integration.DiscordGame.RefreshSensors | custom_components/discord_game/sensor.py:302-303 | one refresh per sub-sensor of the record, in creation order |
| Integration.DiscordGame.LoadGameImage | custom_components/discord_game/sensor.py:221-273 | the in-place enrichment leaves the game slot as `EnrichGame` gives it, against the current catalog |
| Integration.DiscordGame.ProbeImages | custom_components/discord_game/sensor.py:232-273 | the ten probe-gated writes give the Steam images `ProbeSteamImages` describes |
| Integration.DiscordGame.ProbeImage | custom_components/discord_game/sensor.py:254-255 | an image takes the URL exactly when the probe says yes, and otherwise keeps its value |
| Integration.DiscordGame.FillVoice | custom_components/discord_game/sensor.py:143-162 | the voice attributes, first reset to None, then refilled, equal `VoiceBlock` |
| Integration.DiscordGame.ResetFromMemberInPlace | custom_components/discord_game/sensor.py:104-162 | the in-place reset leaves the record as `ResetFromMember` gives it |
| Integration.DiscordGame.ApplyPlaying | custom_components/discord_game/sensor.py:165-172 | a playing activity, with enrichment, leaves the record as `ApplyActivity` gives it |
| Integration.DiscordGame.ApplyActivityInPlace | custom_components/discord_game/sensor.py:164-210 | one turn of the activity loop leaves the record as `ApplyActivity` gives it |
| Integration.DiscordGame.UpdateDiscordEntity | custom_components/discord_game/sensor.py:103-212 | the record becomes `Recompute` of its old value and the member, and one refresh of the entity is requested |
| Integration.DiscordGame.UpdateDiscordEntityUser | custom_components/discord_game/sensor.py:214-219 | the record becomes `WithUser` of its old value (avatar, id, name, global name), and one refresh is requested |
| Integration.DiscordGame.OnMemberUpdate | custom_components/discord_game/sensor.py:297-303 | a tracked member's record is recomputed, then the entity and every sub-sensor are refreshed; an untracked member changes nothing and requests nothing |
| Integration.DiscordGame.OnPresenceUpdate | custom_components/discord_game/sensor.py:306-312 | the same as a member update |
| Integration.DiscordGame.OnUserUpdate | custom_components/discord_game/sensor.py:315-321 | a tracked user gets the user update, then the entity and every sub-sensor are refreshed; an untracked user changes nothing |
| Integration.DiscordGame.OnVoiceStateUpdate | custom_components/discord_game/sensor.py:324-341 | a tracked member's voice block becomes the new voice state's; the entity and every sub-sensor are refreshed; an untracked member changes nothing |
| Integration.DiscordGame.OnRawReactionAdd | custom_components/discord_game/sensor.py:343-352 | a tracked channel's state and last user become the reactor's display name, with exactly one refresh; an untracked channel changes nothing and requests nothing |
| Integration.DiscordGame.ReadyUser | custom_components/discord_game/sensor.py:287-288 | the user update runs exactly when the user is cached, with its one refresh |
| Integration.DiscordGame.ReadyRecompute | custom_components/discord_game/sensor.py:289-292 | the recompute runs exactly when the member is cached, refreshing the entity and every sub-sensor |
| Integration.DiscordGame.ReadyMember | custom_components/discord_game/sensor.py:286-292 | one tracked key's record becomes `ReadyRecord` of its old value; no other record changes |
| Integration.DiscordGame.RefreshChannels | custom_components/discord_game/sensor.py:293-294 | one refresh per channel, in dict order |
| Integration.DiscordGame.ReadyNext | custom_components/discord_game/sensor.py:286-292 | one turn of the member loop of `on_ready` moves one more key's record to its target and appends that key's refreshes |
| Integration.DiscordGame.ReadyLoop | custom_components/discord_game/sensor.py:286-292 | the member loop moves every record from its start value to its target, with the refreshes in dict order |
| Integration.DiscordGame.ReadyAllMembers | custom_components/discord_game/sensor.py:286-292 | after the member loop, every tracked record is `ReadyRecord` of its value before the loop |
| Integration.DiscordGame.OnReady | custom_components/discord_game/sensor.py:282-294 | every tracked record gets the user update if cached and the recompute if cached; the refreshes are those of the members in dict order, then one per channel |
| Integration.DiscordGame.ReadyRefreshCount | custom_components/discord_game/sensor.py:286-294 | with every tracked key in both caches, `on_ready` requests 49 refreshes per tracked member plus one per channel |
| Integration.DiscordGame.WatcherReadyRefreshCount | custom_components/discord_game/sensor.py:286-292 | 49 refreshes per key found in both caches |

## Left out

- Network I/O: the Steam catalog download (`load_steam_application_list`), the hourly reload
  task and the HEAD requests of `check_resource_exists`. The catalog is a value that
  `ReplaceSteamApps` replaces. The probe is an uninterpreted `string -> bool`. A failed
  download is not modelled.
- The clock: `calendar.timegm(time.gmtime())` is the parameter `now`, one value per handler
  call. The code reads the clock once per enrichment (`load_game_image`), not once per
  handler, so two playing activities in one member's list may see different timestamps in
  the code. In the model they share one. Every probe of one enrichment sees one timestamp,
  as in the code.
- Avatar URL rendering (`display_avatar.with_size(1024).with_static_format(...)`) is a foreign
  library. The user carries the rendered URL.
- `"{}".format(member)` and `"{}".format(channel)`: the keys are abstract strings carried by the
  objects. Fetching the channel of a reaction payload is done by the caller.
- `GenericSensor.entity_picture`, which uses `validators.url` from a foreign library;
  `extra_state_attributes`, a presentation dict over the same attributes with some keys
  renamed; `DeviceInfo` and `should_poll`. The state a sub-sensor shows is `Records.SensorValue`.
  Ids and names are modelled in `Naming`.
- Bot login, start and stop, the `on_error` re-raise, the Home Assistant bus events, and
  entity registration as a host call. `RegisteredEntityIds` gives what would be registered.
- Asynchronous interleaving at the `await` points. Each handler runs to completion in the
  model.
- Exceptions raised by foreign calls. The fetches are in the setup build loops
  (sensor.py:357 and :366) and in the reaction handler (sensor.py:346). The chat library
  raises on an unknown id rather than return None. In setup, such an exception aborts setup
  with nothing registered. In the reaction handler, the fetch runs on every reaction, before
  the tracked-channel check, so a failing fetch ends the handler with no change and no
  refresh. The skip of an entry that does
  not resolve, in `RegistryTracksResolvedEntries`, is this model's reading of the `if user:`
  and `if chan:` guards.
- Naming.SnowflakePrefixAlwaysMatches: `\d` is modelled as the ASCII digits, while Python's
  `\d` also matches other Unicode decimal digits. The matched prefix may then be longer in
  the code. That the match always succeeds holds either way.
- `config_flow.py` and `__init__.py`: the setup wizard and the setup forwarding.
- Integration.DiscordGame.ReadyMemberTo and Integration.DiscordGame.ReadyTargetMap are proof
  helpers of the `on_ready` loop, not behaviour of the source.
- Records.SensorValue: there is no lemma that every SENSORS name is an attribute `getattr` can
  read. Proving it needs a case per list position.
