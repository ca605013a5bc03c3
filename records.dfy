/** The attribute record of a tracked member (the state of `DiscordAsyncMemberState`) as a
    value, and what each handler does to it, as functions. The handlers in module Integration
    change a `MemberState` object in place and are proved to match these functions; the lemmas
    here state what the functions guarantee. */
module Records {
  import opened Wrappers
  import opened Text
  import opened Discord
  import opened Naming

  /** The nine `game_image_*` attributes filled from the Steam CDN. */
  datatype SteamImages = SteamImages(
    capsule231x87: Option<string>,
    capsule467x181: Option<string>,
    capsule616x353: Option<string>,
    header: Option<string>,
    heroCapsule: Option<string>,
    library600x900: Option<string>,
    libraryHero: Option<string>,
    logo: Option<string>,
    pageBgRaw: Option<string>)

  /** `game`, `game_state`, `game_details`, the four rich-presence image attributes and the
      Steam images. */
  datatype GameSlot = GameSlot(
    name: Option<string>,
    state: Option<string>,
    details: Option<string>,
    imageSmall: Option<string>,
    imageLarge: Option<string>,
    imageSmallText: Option<string>,
    imageLargeText: Option<string>,
    steam: SteamImages)

  /** The three attributes of the streaming, listening and watching slots: `<slot>`,
      `<slot>_details`, `<slot>_url`. */
  datatype LinkSlot = LinkSlot(name: Option<string>, details: Option<string>, url: Option<string>)

  /** The eight `spotify_*` attributes. */
  datatype SpotifySlot = SpotifySlot(
    artists: Option<string>,
    title: Option<string>,
    album: Option<string>,
    albumCoverUrl: Option<string>,
    trackId: Option<string>,
    duration: Option<string>,
    start: Option<string>,
    end: Option<string>)

  /** `custom_status` and `custom_emoji`. */
  datatype CustomSlot = CustomSlot(status: Option<string>, emoji: Option<string>)

  /** `voice_channel` and the seven voice flags. */
  datatype VoiceSlot = VoiceSlot(
    channel: Option<string>,
    deaf: Option<bool>,
    mute: Option<bool>,
    selfDeaf: Option<bool>,
    selfMute: Option<bool>,
    selfStream: Option<bool>,
    selfVideo: Option<bool>,
    afk: Option<bool>)

  /** Every attribute of a member record. `state` is the entity state (the member status). */
  datatype Record = Record(
    member: string,
    userid: nat,
    userName: Option<string>,
    avatarUrl: Option<string>,
    state: string,
    activityState: Option<string>,
    displayName: Option<string>,
    roles: Option<seq<string>>,
    game: GameSlot,
    streaming: LinkSlot,
    listening: LinkSlot,
    spotify: SpotifySlot,
    watching: LinkSlot,
    custom: CustomSlot,
    voice: VoiceSlot)

  const NO_STEAM_IMAGES: SteamImages := SteamImages(None, None, None, None, None, None, None, None, None)
  const NO_GAME: GameSlot := GameSlot(None, None, None, None, None, None, None, NO_STEAM_IMAGES)
  const NO_LINK: LinkSlot := LinkSlot(None, None, None)
  const NO_SPOTIFY: SpotifySlot := SpotifySlot(None, None, None, None, None, None, None, None)
  const NO_CUSTOM: CustomSlot := CustomSlot(None, None)
  const NO_VOICE: VoiceSlot := VoiceSlot(None, None, None, None, None, None, None, None)

  /** The record a member entity starts with: name, global name and id of the fetched user,
      state and activity state "unknown", everything else None. */
  function InitialRecord(member: string, userName: Option<string>, userid: nat): Record {
    Record(member, userid, userName, None, "unknown", Some("unknown"), None, None,
           NO_GAME, NO_LINK, NO_LINK, NO_SPOTIFY, NO_LINK, NO_CUSTOM, NO_VOICE)
  }

  /** No activity or voice attribute is set. */
  predicate NoPresence(r: Record) {
    && r.game == NO_GAME && r.streaming == NO_LINK && r.listening == NO_LINK
    && r.spotify == NO_SPOTIFY && r.watching == NO_LINK && r.custom == NO_CUSTOM
    && r.voice == NO_VOICE
  }

  lemma InitialRecordIsBlank(member: string, userName: Option<string>, userid: nat)
    ensures var r := InitialRecord(member, userName, userid);
      NoPresence(r) && r.state == "unknown" && r.activityState == Some("unknown")
      && r.member == member && r.userName == userName && r.userid == userid
      && r.avatarUrl == None && r.displayName == None && r.roles == None
  {
  }

  // ---------------------------------------------------------------------------------------
  // Attribute access by name: the value a sub-sensor shows is `getattr(record, attr)`.

  datatype AttrValue = Text(text: Option<string>) | Flag(flag: Option<bool>) | Names(names: Option<seq<string>>)

  /** `getattr(record, attr)` for the attributes a sub-sensor can show; None for any other name. */
  function SensorValue(r: Record, attr: string): Option<AttrValue> {
    match attr
    case "user_name" => Some(Text(r.userName))
    case "display_name" => Some(Text(r.displayName))
    case "roles" => Some(Names(r.roles))
    case "game" => Some(Text(r.game.name))
    case "game_state" => Some(Text(r.game.state))
    case "game_details" => Some(Text(r.game.details))
    case "game_image_small" => Some(Text(r.game.imageSmall))
    case "game_image_large" => Some(Text(r.game.imageLarge))
    case "game_image_small_text" => Some(Text(r.game.imageSmallText))
    case "game_image_large_text" => Some(Text(r.game.imageLargeText))
    case "game_image_capsule_231x87" => Some(Text(r.game.steam.capsule231x87))
    case "game_image_capsule_467x181" => Some(Text(r.game.steam.capsule467x181))
    case "game_image_capsule_616x353" => Some(Text(r.game.steam.capsule616x353))
    case "game_image_header" => Some(Text(r.game.steam.header))
    case "game_image_hero_capsule" => Some(Text(r.game.steam.heroCapsule))
    case "game_image_library_600x900" => Some(Text(r.game.steam.library600x900))
    case "game_image_library_hero" => Some(Text(r.game.steam.libraryHero))
    case "game_image_logo" => Some(Text(r.game.steam.logo))
    case "game_image_page_bg_raw" => Some(Text(r.game.steam.pageBgRaw))
    case "streaming" => Some(Text(r.streaming.name))
    case "streaming_url" => Some(Text(r.streaming.url))
    case "streaming_details" => Some(Text(r.streaming.details))
    case "listening" => Some(Text(r.listening.name))
    case "listening_url" => Some(Text(r.listening.url))
    case "listening_details" => Some(Text(r.listening.details))
    case "spotify_artists" => Some(Text(r.spotify.artists))
    case "spotify_title" => Some(Text(r.spotify.title))
    case "spotify_album" => Some(Text(r.spotify.album))
    case "spotify_album_cover_url" => Some(Text(r.spotify.albumCoverUrl))
    case "spotify_track_id" => Some(Text(r.spotify.trackId))
    case "spotify_duration" => Some(Text(r.spotify.duration))
    case "spotify_start" => Some(Text(r.spotify.start))
    case "spotify_end" => Some(Text(r.spotify.end))
    case "watching" => Some(Text(r.watching.name))
    case "watching_url" => Some(Text(r.watching.url))
    case "watching_details" => Some(Text(r.watching.details))
    case "avatar_url" => Some(Text(r.avatarUrl))
    case "custom_status" => Some(Text(r.custom.status))
    case "custom_emoji" => Some(Text(r.custom.emoji))
    case _ => VoiceSensorValue(r.voice, attr)
  }

  /** `getattr` for the eight voice attributes; None for any other name. */
  function VoiceSensorValue(v: VoiceSlot, attr: string): Option<AttrValue> {
    match attr
    case "voice_channel" => Some(Text(v.channel))
    case "voice_deaf" => Some(Flag(v.deaf))
    case "voice_mute" => Some(Flag(v.mute))
    case "voice_self_deaf" => Some(Flag(v.selfDeaf))
    case "voice_self_mute" => Some(Flag(v.selfMute))
    case "voice_self_stream" => Some(Flag(v.selfStream))
    case "voice_self_video" => Some(Flag(v.selfVideo))
    case "voice_afk" => Some(Flag(v.afk))
    case _ => None
  }

  /** The names of the voice attributes (the sub-sensors a voice update can change). */
  predicate IsVoiceSensor(attr: string) {
    VoiceSensorValue(NO_VOICE, attr).Some?
  }

  function SteamImage(s: SteamImages, k: ImageKind): Option<string> {
    match k
    case Capsule231x87 => s.capsule231x87
    case Capsule467x181 => s.capsule467x181
    case Capsule616x353 => s.capsule616x353
    case Header => s.header
    case HeroCapsule => s.heroCapsule
    case Library600x900 => s.library600x900
    case LibraryHero => s.libraryHero
    case Logo => s.logo
    case PageBgRaw => s.pageBgRaw
  }

  // ---------------------------------------------------------------------------------------
  // The voice block.

  /** The voice attributes filled from a voice state: None everywhere when there is no voice
      state; otherwise the channel's name (None without a channel) and the seven flags. */
  function VoiceBlock(v: Option<VoiceState>): (s: VoiceSlot)
    ensures v.None? ==> s == NO_VOICE
    ensures v.Some? ==> s.channel == (if v.value.channel.Some? then Some(v.value.channel.value.name) else None)
    ensures v.Some? ==> && s.deaf == Some(v.value.deaf) && s.mute == Some(v.value.mute)
                        && s.selfDeaf == Some(v.value.selfDeaf) && s.selfMute == Some(v.value.selfMute)
                        && s.selfStream == Some(v.value.selfStream) && s.selfVideo == Some(v.value.selfVideo)
                        && s.afk == Some(v.value.afk)
  {
    match v
    case None => NO_VOICE
    case Some(vs) =>
      VoiceSlot(
        match vs.channel case Some(c) => Some(c.name) case None => None,
        Some(vs.deaf), Some(vs.mute), Some(vs.selfDeaf), Some(vs.selfMute),
        Some(vs.selfStream), Some(vs.selfVideo), Some(vs.afk))
  }

  // ---------------------------------------------------------------------------------------
  // Game-image enrichment.

  /** `str(name)`: Python renders a missing name as "None". */
  function PyStr(name: Option<string>): string {
    match name
    case Some(s) => s
    case None => "None"
  }

  /** `list(filter(lambda app: app['name'] == name, apps))`. */
  function SteamAppsNamed(apps: seq<SteamApp>, name: string): (hits: seq<SteamApp>)
    decreases |apps|
  {
    if apps == [] then []
    else
      var rest := SteamAppsNamed(apps[1..], name);
      if apps[0].name == name then [apps[0]] + rest else rest
  }

  /** The filter keeps only catalog entries named `name`; it is empty only when no entry has
      the name, and its head is the first entry that has it. */
  lemma {:induction false} SteamAppsNamedFilters(apps: seq<SteamApp>, name: string)
    ensures var hits := SteamAppsNamed(apps, name);
      && (forall a :: a in hits ==> a in apps && a.name == name)
      && (hits == [] <==> forall i :: 0 <= i < |apps| ==> apps[i].name != name)
      && (hits != [] ==> exists i :: 0 <= i < |apps| && apps[i] == hits[0]
                                     && forall j :: 0 <= j < i ==> apps[j].name != name)
    decreases |apps|
  {
    if apps != [] {
      SteamAppsNamedFilters(apps[1..], name);
      assert forall j :: 1 <= j < |apps| ==> apps[j] == apps[1..][j - 1];
      var hits := SteamAppsNamed(apps, name);
      if apps[0].name != name && hits != [] {
        var i :| 0 <= i < |apps[1..]| && apps[1..][i] == hits[0]
                 && forall j :: 0 <= j < i ==> apps[1..][j].name != name;
        assert apps[i + 1] == hits[0];
      }
    }
  }

  /** The app id of the first catalog entry named exactly `name`, if there is one. */
  function FindSteamApp(apps: seq<SteamApp>, name: string): Option<nat>
  {
    var hits := SteamAppsNamed(apps, name);
    if hits == [] then None else Some(hits[0].appid)
  }

  /** The lookup finds nothing exactly when no entry is named `name`, and otherwise the id of
      the first entry that is. */
  lemma FindSteamAppFirstMatch(apps: seq<SteamApp>, name: string)
    ensures var id := FindSteamApp(apps, name);
      && (id.None? <==> forall i :: 0 <= i < |apps| ==> apps[i].name != name)
      && (id.Some? ==> exists i :: && 0 <= i < |apps| && apps[i].name == name && apps[i].appid == id.value
                                   && forall j :: 0 <= j < i ==> apps[j].name != name)
  {
    SteamAppsNamedFilters(apps, name);
  }

  /** The Steam images after the ten probes for app `appid`: an image is replaced by its
      candidate URL exactly when the probe of that URL answers true; the logo takes the `.png`
      URL when that probe is true, else the `.jpg` URL when that probe is true. */
  function ProbeSteamImages(s: SteamImages, appid: nat, probe: string -> bool, now: nat): SteamImages
  {
    var logo := Gate(probe, CandidateUrl(appid, Logo, now), s.logo);
    SteamImages(
      Gate(probe, CandidateUrl(appid, Capsule231x87, now), s.capsule231x87),
      Gate(probe, CandidateUrl(appid, Capsule467x181, now), s.capsule467x181),
      Gate(probe, CandidateUrl(appid, Capsule616x353, now), s.capsule616x353),
      Gate(probe, CandidateUrl(appid, Header, now), s.header),
      Gate(probe, CandidateUrl(appid, HeroCapsule, now), s.heroCapsule),
      Gate(probe, CandidateUrl(appid, Library600x900, now), s.library600x900),
      Gate(probe, CandidateUrl(appid, LibraryHero, now), s.libraryHero),
      Gate(probe, LogoPngUrl(appid, now), logo),
      Gate(probe, CandidateUrl(appid, PageBgRaw, now), s.pageBgRaw))
  }

  /** Each image other than the logo is replaced by its candidate URL exactly when the probe of
      that URL answers true; the logo takes the `.png` URL when that probe is true, else the
      `.jpg` URL when that probe is true, else keeps its value. */
  lemma ProbeSteamImagesGates(s: SteamImages, appid: nat, probe: string -> bool, now: nat)
    ensures var r := ProbeSteamImages(s, appid, probe, now);
      && (forall k :: k != Logo ==> SteamImage(r, k) == Gate(probe, CandidateUrl(appid, k, now), SteamImage(s, k)))
      && r.logo == Gate(probe, LogoPngUrl(appid, now), Gate(probe, CandidateUrl(appid, Logo, now), s.logo))
  {
  }

  /** The `.jpg` candidate URL of an image kind. */
  function CandidateUrl(appid: nat, k: ImageKind, now: nat): string {
    SteamImageUrl(appid, JpgFile(k), now)
  }

  /** The `.png` candidate URL of the logo. */
  function LogoPngUrl(appid: nat, now: nat): string {
    SteamImageUrl(appid, LOGO_PNG_FILE, now)
  }

  /** One probe-gated assignment: the URL if the probe answers true, else what was there. */
  function Gate(probe: string -> bool, url: string, previous: Option<string>): Option<string> {
    if probe(url) then Some(url) else previous
  }

  /** What `load_game_image` does to the game slot for a playing activity. */
  function EnrichGame(g: GameSlot, name: Option<string>, rich: Option<RichPresence>,
                      apps: seq<SteamApp>, probe: string -> bool, now: nat): GameSlot
  {
    var withRich :=
      match rich
      case Some(p) => g.(imageSmall := p.smallImageUrl, imageLarge := p.largeImageUrl,
                         imageSmallText := p.smallImageText, imageLargeText := p.largeImageText)
      case None => g;
    match FindSteamApp(apps, PyStr(name))
    case None => withRich
    case Some(appid) => withRich.(steam := ProbeSteamImages(g.steam, appid, probe, now))
  }

  /** The enrichment leaves name, state and details alone, copies the rich-presence images
      when there is a rich presence and keeps them otherwise, and changes the Steam images only
      through the probes of the first catalog entry named `str(name)`. */
  lemma EnrichGameSlots(g: GameSlot, name: Option<string>, rich: Option<RichPresence>,
                        apps: seq<SteamApp>, probe: string -> bool, now: nat)
    ensures var r := EnrichGame(g, name, rich, apps, probe, now);
      && r.name == g.name && r.state == g.state && r.details == g.details
      && (rich.Some? ==> && r.imageSmall == rich.value.smallImageUrl && r.imageLarge == rich.value.largeImageUrl
                         && r.imageSmallText == rich.value.smallImageText
                         && r.imageLargeText == rich.value.largeImageText)
      && (rich.None? ==> && r.imageSmall == g.imageSmall && r.imageLarge == g.imageLarge
                         && r.imageSmallText == g.imageSmallText && r.imageLargeText == g.imageLargeText)
      && (FindSteamApp(apps, PyStr(name)).None? ==> r.steam == g.steam)
      && (FindSteamApp(apps, PyStr(name)).Some? ==>
            r.steam == ProbeSteamImages(g.steam, FindSteamApp(apps, PyStr(name)).value, probe, now))
  {
  }

  /** Steam images are written only for a catalog hit and only where the probe says yes. */
  lemma EnrichGameWritesOnlyProbedImages(g: GameSlot, name: Option<string>, rich: Option<RichPresence>,
                                         apps: seq<SteamApp>, probe: string -> bool, now: nat, k: ImageKind)
    ensures var r := EnrichGame(g, name, rich, apps, probe, now);
      SteamImage(r.steam, k) != SteamImage(g.steam, k) ==>
        exists i :: && 0 <= i < |apps| && apps[i].name == PyStr(name)
                    && var u := SteamImage(r.steam, k);
                       u.Some? && probe(u.value)
                       && (u.value == CandidateUrl(apps[i].appid, k, now)
                           || (k == Logo && u.value == LogoPngUrl(apps[i].appid, now)))
  {
    var id := FindSteamApp(apps, PyStr(name));
    FindSteamAppFirstMatch(apps, PyStr(name));
    if id.Some? {
      ProbeSteamImagesGates(g.steam, id.value, probe, now);
    }
  }

  // ---------------------------------------------------------------------------------------
  // Activities.

  /** What one turn of the activity loop does to the record. */
  function ApplyActivity(r: Record, a: Activity, apps: seq<SteamApp>, probe: string -> bool, now: nat): Record {
    match a
    case Playing(name, rich) =>
      var g := EnrichGame(r.game, name, rich, apps, probe, now).(name := name);
      r.(game := match rich case Some(p) => g.(state := p.state, details := p.details) case None => g)
    case Streaming(name, details, url) =>
      r.(streaming := LinkSlot(name, details, url))
    case Spotify(title, artists, album, cover, trackId, duration, start, end) =>
      r.(listening := r.listening.(name := Some(title)),
         spotify := SpotifySlot(Some(Join(", ", artists)), Some(title), Some(album), Some(cover),
                                Some(trackId), Some(duration), Some(start), Some(end)))
    case Listening(name, state, details, url) =>
      r.(activityState := state, listening := LinkSlot(name, details, url))
    case Watching(name, state, details, url) =>
      r.(activityState := state, watching := LinkSlot(name, details, url))
    case Custom(name, state, emoji) =>
      r.(activityState := state, custom := CustomSlot(name, emoji))
    case Unrecognized(_) => r
  }

  /** The activity loop over a whole list, first to last. */
  function ApplyActivities(r: Record, acts: seq<Activity>, apps: seq<SteamApp>, probe: string -> bool, now: nat): Record
    decreases |acts|
  {
    if acts == [] then r
    else ApplyActivity(ApplyActivities(r, acts[..|acts| - 1], apps, probe, now), acts[|acts| - 1], apps, probe, now)
  }

  /** The name attribute of a slot: `game`, `streaming`, `listening`, `watching`, `custom_status`. */
  function SlotName(r: Record, k: Kind): Option<string> {
    match k
    case PlayingKind => r.game.name
    case StreamingKind => r.streaming.name
    case ListeningKind => r.listening.name
    case WatchingKind => r.watching.name
    case CustomKind => r.custom.status
  }

  /** The value an activity writes into its slot's name attribute (a Spotify activity: its title). */
  function NameFrom(a: Activity): Option<string> {
    match a
    case Spotify(title, _, _, _, _, _, _, _) => Some(title)
    case Unrecognized(_) => None
    case _ => a.name
  }

  /** Attributes no activity writes. */
  predicate SameOutsideActivities(r: Record, s: Record) {
    && s.member == r.member && s.userid == r.userid && s.userName == r.userName
    && s.avatarUrl == r.avatarUrl && s.state == r.state && s.roles == r.roles
    && s.displayName == r.displayName && s.voice == r.voice
  }

  lemma {:induction false} ActivitiesKeepOtherAttributes(r: Record, acts: seq<Activity>, apps: seq<SteamApp>,
                                                          probe: string -> bool, now: nat)
    ensures SameOutsideActivities(r, ApplyActivities(r, acts, apps, probe, now))
    decreases |acts|
  {
    if acts != [] {
      ActivitiesKeepOtherAttributes(r, acts[..|acts| - 1], apps, probe, now);
    }
  }

  /** One turn of the loop writes only the slot of the activity's kind. */
  lemma ActivityWritesOwnSlot(x: Record, a: Activity, apps: seq<SteamApp>, probe: string -> bool, now: nat, k: Kind)
    ensures var s := ApplyActivity(x, a, apps, probe, now);
      && (KindOf(a) == Some(k) ==> SlotName(s, k) == NameFrom(a))
      && (KindOf(a) != Some(k) ==> SlotName(s, k) == SlotName(x, k))
      && (a.Streaming? ==> s.streaming == LinkSlot(a.name, a.details, a.url))
      && (a.Watching? ==> s.watching == LinkSlot(a.name, a.details, a.url))
      && (a.Custom? ==> s.custom == CustomSlot(a.name, a.emojiName))
      && (!a.Streaming? ==> s.streaming == x.streaming)
      && (!a.Watching? ==> s.watching == x.watching)
      && (!a.Custom? ==> s.custom == x.custom)
  {
  }

  /** Each slot's name attribute holds what the last activity of that kind wrote, and is
      untouched when the list has no activity of that kind; the streaming, watching and custom
      slots are wholly the last such activity's. */
  lemma {:induction false} LastActivityOfKindWins(r: Record, acts: seq<Activity>, apps: seq<SteamApp>,
                                                  probe: string -> bool, now: nat, k: Kind)
    ensures var s := ApplyActivities(r, acts, apps, probe, now);
      match LastOfKind(acts, k)
      case None => SlotName(s, k) == SlotName(r, k)
      case Some(a) =>
        && SlotName(s, k) == NameFrom(a)
        && (a.Streaming? ==> s.streaming == LinkSlot(a.name, a.details, a.url))
        && (a.Watching? ==> s.watching == LinkSlot(a.name, a.details, a.url))
        && (a.Custom? ==> s.custom == CustomSlot(a.name, a.emojiName))
    decreases |acts|
  {
    if acts != [] {
      var init, a := acts[..|acts| - 1], acts[|acts| - 1];
      LastActivityOfKindWins(r, init, apps, probe, now, k);
      ActivityWritesOwnSlot(ApplyActivities(r, init, apps, probe, now), a, apps, probe, now, k);
    }
  }

  /** The slot of kind `k` (all of its attributes) is the same in both records. */
  predicate SameSlot(r: Record, s: Record, k: Kind) {
    match k
    case PlayingKind => s.game == r.game
    case StreamingKind => s.streaming == r.streaming
    case ListeningKind => s.listening == r.listening
    case WatchingKind => s.watching == r.watching
    case CustomKind => s.custom == r.custom
  }

  /** An activity leaves the slots of the other kinds alone. */
  lemma ActivityKeepsOtherSlots(r: Record, a: Activity, apps: seq<SteamApp>, probe: string -> bool, now: nat, k: Kind)
    requires KindOf(a) != Some(k)
    ensures SameSlot(r, ApplyActivity(r, a, apps, probe, now), k)
  {
  }

  /** A slot no activity of the list belongs to keeps all of its attributes. */
  lemma {:induction false} SlotWithoutActivityUntouched(r: Record, acts: seq<Activity>, apps: seq<SteamApp>,
                                                        probe: string -> bool, now: nat, k: Kind)
    ensures LastOfKind(acts, k).None? ==> SameSlot(r, ApplyActivities(r, acts, apps, probe, now), k)
    decreases |acts|
  {
    if acts != [] && LastOfKind(acts, k).None? {
      var init := acts[..|acts| - 1];
      SlotWithoutActivityUntouched(r, init, apps, probe, now, k);
      ActivityKeepsOtherSlots(ApplyActivities(r, init, apps, probe, now), acts[|acts| - 1], apps, probe, now, k);
    }
  }

  /** The Spotify attributes are the last Spotify activity's (artists joined by ", ") and are
      untouched without one; `activity_state` is the state of the last listening (not Spotify),
      watching or custom activity and is untouched without one. */
  lemma {:induction false} SpotifyAndActivityState(r: Record, acts: seq<Activity>, apps: seq<SteamApp>,
                                                   probe: string -> bool, now: nat)
    ensures var s := ApplyActivities(r, acts, apps, probe, now);
      && (match LastWhere(acts, (a: Activity) => a.Spotify?)
          case None => s.spotify == r.spotify
          case Some(a) => s.spotify == SpotifySlot(Some(Join(", ", a.artists)), Some(a.title), Some(a.album),
                                                   Some(a.albumCoverUrl), Some(a.trackId), Some(a.duration),
                                                   Some(a.start), Some(a.end)))
      && (match LastWhere(acts, SetsActivityState)
          case None => s.activityState == r.activityState
          case Some(a) => s.activityState == a.state)
    decreases |acts|
  {
    if acts != [] {
      SpotifyAndActivityState(r, acts[..|acts| - 1], apps, probe, now);
    }
  }

  /** Activities of a type the handlers do not know change nothing. */
  lemma UnrecognizedActivitiesIgnored(r: Record, acts: seq<Activity>, extra: int, apps: seq<SteamApp>,
                                      probe: string -> bool, now: nat)
    ensures ApplyActivities(r, acts + [Unrecognized(extra)], apps, probe, now) == ApplyActivities(r, acts, apps, probe, now)
  {
    assert (acts + [Unrecognized(extra)])[..|acts|] == acts;
  }

  /** The state, details and rich-presence image attributes of a game slot. */
  predicate SameRichPresence(g: GameSlot, h: GameSlot) {
    && h.state == g.state && h.details == g.details
    && h.imageSmall == g.imageSmall && h.imageLarge == g.imageLarge
    && h.imageSmallText == g.imageSmallText && h.imageLargeText == g.imageLargeText
  }

  /** Without a catalog hit for any playing activity, the loop leaves the Steam images alone. */
  lemma {:induction false} SteamImagesNeedCatalogHit(r: Record, acts: seq<Activity>, apps: seq<SteamApp>,
                                                     probe: string -> bool, now: nat)
    ensures (forall i :: 0 <= i < |acts| && acts[i].Playing? ==> FindSteamApp(apps, PyStr(acts[i].name)).None?)
            ==> ApplyActivities(r, acts, apps, probe, now).game.steam == r.game.steam
    decreases |acts|
  {
    if acts != [] && forall i :: 0 <= i < |acts| && acts[i].Playing? ==> FindSteamApp(apps, PyStr(acts[i].name)).None? {
      var init := acts[..|acts| - 1];
      assert forall i :: 0 <= i < |init| ==> init[i] == acts[i];
      SteamImagesNeedCatalogHit(r, init, apps, probe, now);
    }
  }

  /** With only bare `Game` objects among the playing activities, the loop leaves the game
      state, details and rich-presence images alone. */
  lemma {:induction false} RichAttributesNeedRichPresence(r: Record, acts: seq<Activity>, apps: seq<SteamApp>,
                                                          probe: string -> bool, now: nat)
    ensures (forall i :: 0 <= i < |acts| && acts[i].Playing? ==> acts[i].rich.None?)
            ==> SameRichPresence(r.game, ApplyActivities(r, acts, apps, probe, now).game)
    decreases |acts|
  {
    if acts != [] && forall i :: 0 <= i < |acts| && acts[i].Playing? ==> acts[i].rich.None? {
      var init := acts[..|acts| - 1];
      assert forall i :: 0 <= i < |init| ==> init[i] == acts[i];
      RichAttributesNeedRichPresence(r, init, apps, probe, now);
    }
  }

  /** Without a plain listening activity, `listening_details` and `listening_url` are left
      alone: a Spotify activity writes only `listening`. */
  lemma {:induction false} ListeningExtrasNeedListening(r: Record, acts: seq<Activity>, apps: seq<SteamApp>,
                                                        probe: string -> bool, now: nat)
    ensures (forall i :: 0 <= i < |acts| ==> !acts[i].Listening?)
            ==> var s := ApplyActivities(r, acts, apps, probe, now);
                s.listening.details == r.listening.details && s.listening.url == r.listening.url
    decreases |acts|
  {
    if acts != [] && forall i :: 0 <= i < |acts| ==> !acts[i].Listening? {
      var init := acts[..|acts| - 1];
      assert forall i :: 0 <= i < |init| ==> init[i] == acts[i];
      ListeningExtrasNeedListening(r, init, apps, probe, now);
    }
  }

  /** `url` is a candidate URL of image kind `k` for the first catalog entry named after the
      playing activity `a`, and the probe of `url` answered true. */
  predicate ProbedHitUrl(a: Activity, apps: seq<SteamApp>, probe: string -> bool, now: nat, k: ImageKind, url: string) {
    && a.Playing?
    && FindSteamApp(apps, PyStr(a.name)).Some?
    && probe(url)
    && var id := FindSteamApp(apps, PyStr(a.name)).value;
       (url == CandidateUrl(id, k, now) || (k == Logo && url == LogoPngUrl(id, now)))
  }

  /** One turn of the loop either keeps a Steam image or writes a probed candidate URL of its
      own activity's catalog hit. */
  lemma ActivitySteamImage(x: Record, a: Activity, apps: seq<SteamApp>, probe: string -> bool, now: nat, k: ImageKind)
    ensures var img := SteamImage(ApplyActivity(x, a, apps, probe, now).game.steam, k);
      img == SteamImage(x.game.steam, k) || (img.Some? && ProbedHitUrl(a, apps, probe, now, k, img.value))
  {
    if a.Playing? && FindSteamApp(apps, PyStr(a.name)).Some? {
      ProbeSteamImagesGates(x.game.steam, FindSteamApp(apps, PyStr(a.name)).value, probe, now);
    }
  }

  /** After the loop, a Steam image is either the one before it or a probed candidate URL of
      some playing activity's first catalog hit. */
  lemma {:induction false} SteamImagesFromProbedHits(r: Record, acts: seq<Activity>, apps: seq<SteamApp>,
                                                     probe: string -> bool, now: nat, k: ImageKind)
    ensures var img := SteamImage(ApplyActivities(r, acts, apps, probe, now).game.steam, k);
      || img == SteamImage(r.game.steam, k)
      || (img.Some? && exists i :: 0 <= i < |acts| && ProbedHitUrl(acts[i], apps, probe, now, k, img.value))
    decreases |acts|
  {
    if acts != [] {
      var init, a := acts[..|acts| - 1], acts[|acts| - 1];
      var x := ApplyActivities(r, init, apps, probe, now);
      SteamImagesFromProbedHits(r, init, apps, probe, now, k);
      ActivitySteamImage(x, a, apps, probe, now, k);
      var img := SteamImage(ApplyActivity(x, a, apps, probe, now).game.steam, k);
      if img != SteamImage(x.game.steam, k) {
        assert ProbedHitUrl(acts[|acts| - 1], apps, probe, now, k, img.value);
      } else if img != SteamImage(r.game.steam, k) {
        var i :| 0 <= i < |init| && ProbedHitUrl(init[i], apps, probe, now, k, img.value);
        assert acts[i] == init[i];
      }
    }
  }

  /** The game slot merges across playing activities: a bare `Game` after a rich-presence
      activity replaces the game's name but keeps the state, details and images written before. */
  lemma GameSlotMergesAcrossActivities(r: Record, first: Option<string>, p: RichPresence, second: Option<string>,
                                       apps: seq<SteamApp>, probe: string -> bool, now: nat)
    ensures var s := ApplyActivities(r, [Playing(first, Some(p)), Playing(second, None)], apps, probe, now);
      && s.game.name == second && s.game.state == p.state && s.game.details == p.details
      && s.game.imageSmall == p.smallImageUrl && s.game.imageLarge == p.largeImageUrl
      && s.game.imageSmallText == p.smallImageText && s.game.imageLargeText == p.largeImageText
  {
    var acts := [Playing(first, Some(p)), Playing(second, None)];
    assert acts[..1][..0] == [] && acts[..1] == [acts[0]];
  }

  /** A Spotify activity after a plain listening activity replaces `listening` by the track
      title but keeps the earlier `listening_details` and `listening_url`. */
  lemma ListeningSlotMergesWithSpotify(r: Record, name: Option<string>, state: Option<string>, details: Option<string>,
                                       url: Option<string>, track: Activity, apps: seq<SteamApp>,
                                       probe: string -> bool, now: nat)
    requires track.Spotify?
    ensures ApplyActivities(r, [Listening(name, state, details, url), track], apps, probe, now).listening
            == LinkSlot(Some(track.title), details, url)
  {
    var acts := [Listening(name, state, details, url), track];
    assert acts[..1][..0] == [] && acts[..1] == [acts[0]];
  }

  // ---------------------------------------------------------------------------------------
  // Handler effects on a record.

  /** The role names of a member, in role order. */
  function RoleNames(roles: seq<Role>): seq<string>
  {
    seq(|roles|, i requires 0 <= i < |roles| => roles[i].name)
  }

  lemma RoleNamesInOrder(roles: seq<Role>)
    ensures var names := RoleNames(roles);
      |names| == |roles| && forall i :: 0 <= i < |roles| ==> names[i] == roles[i].name
  {
  }

  /** `update_discord_entity` up to the activity loop: status, roles and display name from the
      member, every activity attribute and the voice block reset, the voice block refilled. */
  function ResetFromMember(r: Record, m: Member): Record {
    r.(state := m.status, roles := Some(RoleNames(m.roles)), displayName := Some(m.displayName),
       activityState := None, game := NO_GAME, streaming := NO_LINK, listening := NO_LINK,
       spotify := NO_SPOTIFY, watching := NO_LINK, custom := NO_CUSTOM, voice := VoiceBlock(m.voice))
  }

  /** `update_discord_entity`: the full recompute of a member record. */
  function Recompute(r: Record, m: Member, apps: seq<SteamApp>, probe: string -> bool, now: nat): Record {
    ApplyActivities(ResetFromMember(r, m), m.activities, apps, probe, now)
  }

  /** `update_discord_entity_user`: identity and avatar from the user. */
  function WithUser(r: Record, u: User): Record {
    r.(avatarUrl := Some(u.avatarUrl), userid := u.id, member := u.name, userName := u.globalName)
  }

  /** `on_voice_state_update` on a tracked member. */
  function WithVoice(r: Record, after: VoiceState): Record {
    r.(voice := VoiceBlock(Some(after)))
  }

  /** One record's share of `on_ready`: the user update if the user is cached, then the full
      recompute if the member is cached. */
  function ReadyRecord(r: Record, u: Option<User>, m: Option<Member>, apps: seq<SteamApp>,
                       probe: string -> bool, now: nat): Record {
    ReadyMemberStep(ReadyUserStep(r, u), m, apps, probe, now)
  }

  /** The user update when the user is cached. */
  function ReadyUserStep(r: Record, u: Option<User>): Record {
    if u.Some? then WithUser(r, u.value) else r
  }

  /** The full recompute when the member is cached. */
  function ReadyMemberStep(r: Record, m: Option<Member>, apps: seq<SteamApp>, probe: string -> bool, now: nat): Record {
    if m.Some? then Recompute(r, m.value, apps, probe, now) else r
  }

  /** After a full recompute: the state is the member's status, the roles its role names in
      order, the voice block as the member's voice state gives it; identity and avatar are kept;
      every slot holds what the last activity of its kind wrote and is entirely None when there
      is no activity of its kind. */
  lemma RecomputeSetsPresence(r: Record, m: Member, apps: seq<SteamApp>, probe: string -> bool, now: nat)
    ensures var s := Recompute(r, m, apps, probe, now);
      && s.state == m.status && s.roles == Some(RoleNames(m.roles)) && s.displayName == Some(m.displayName)
      && s.voice == VoiceBlock(m.voice)
      && s.member == r.member && s.userid == r.userid && s.userName == r.userName && s.avatarUrl == r.avatarUrl
      && (forall k :: SlotName(s, k) == match LastOfKind(m.activities, k) case None => None case Some(a) => NameFrom(a))
      && (LastOfKind(m.activities, PlayingKind).None? ==> s.game == NO_GAME)
      && (LastOfKind(m.activities, StreamingKind).None? ==> s.streaming == NO_LINK)
      && (LastOfKind(m.activities, ListeningKind).None? ==> s.listening == NO_LINK && s.spotify == NO_SPOTIFY)
      && (LastOfKind(m.activities, WatchingKind).None? ==> s.watching == NO_LINK)
      && (LastOfKind(m.activities, CustomKind).None? ==> s.custom == NO_CUSTOM)
      && (LastWhere(m.activities, SetsActivityState).None? ==> s.activityState == None)
      && (match LastWhere(m.activities, (a: Activity) => a.Spotify?)
          case None => s.spotify == NO_SPOTIFY
          case Some(a) => s.spotify == SpotifySlot(Some(Join(", ", a.artists)), Some(a.title), Some(a.album),
                                                   Some(a.albumCoverUrl), Some(a.trackId), Some(a.duration),
                                                   Some(a.start), Some(a.end)))
      && ((forall i :: 0 <= i < |m.activities| && m.activities[i].Playing? ==>
             FindSteamApp(apps, PyStr(m.activities[i].name)).None?) ==> s.game.steam == NO_STEAM_IMAGES)
      && ((forall i :: 0 <= i < |m.activities| && m.activities[i].Playing? ==> m.activities[i].rich.None?) ==>
            SameRichPresence(NO_GAME, s.game))
      && ((forall i :: 0 <= i < |m.activities| ==> !m.activities[i].Listening?) ==>
            s.listening.details == None && s.listening.url == None)
  {
    var r0 := ResetFromMember(r, m);
    SteamImagesNeedCatalogHit(r0, m.activities, apps, probe, now);
    RichAttributesNeedRichPresence(r0, m.activities, apps, probe, now);
    ListeningExtrasNeedListening(r0, m.activities, apps, probe, now);
    ActivitiesKeepOtherAttributes(r0, m.activities, apps, probe, now);
    SlotWithoutActivityUntouched(r0, m.activities, apps, probe, now, PlayingKind);
    SlotWithoutActivityUntouched(r0, m.activities, apps, probe, now, StreamingKind);
    SlotWithoutActivityUntouched(r0, m.activities, apps, probe, now, ListeningKind);
    SlotWithoutActivityUntouched(r0, m.activities, apps, probe, now, WatchingKind);
    SlotWithoutActivityUntouched(r0, m.activities, apps, probe, now, CustomKind);
    SpotifyAndActivityState(r0, m.activities, apps, probe, now);
    forall k
      ensures SlotName(Recompute(r, m, apps, probe, now), k)
              == match LastOfKind(m.activities, k) case None => None case Some(a) => NameFrom(a)
    {
      LastActivityOfKindWins(r0, m.activities, apps, probe, now, k);
    }
  }

  /** Every Steam image a recompute leaves set is a probed candidate URL of the first catalog
      entry named after one of the member's playing activities. */
  lemma RecomputeSteamImagesProbed(r: Record, m: Member, apps: seq<SteamApp>, probe: string -> bool, now: nat,
                                   k: ImageKind)
    ensures var img := SteamImage(Recompute(r, m, apps, probe, now).game.steam, k);
      img.Some? ==> exists i :: 0 <= i < |m.activities| && ProbedHitUrl(m.activities[i], apps, probe, now, k, img.value)
  {
    SteamImagesFromProbedHits(ResetFromMember(r, m), m.activities, apps, probe, now, k);
  }

  /** The two records agree on every attribute except the nine Steam images. */
  predicate SameButSteam(r: Record, s: Record) {
    r.(game := r.game.(steam := s.game.steam)) == s
  }

  lemma ActivitySameButSteam(x1: Record, x2: Record, a: Activity, apps: seq<SteamApp>,
                             probe1: string -> bool, now1: nat, probe2: string -> bool, now2: nat)
    requires SameButSteam(x1, x2)
    ensures SameButSteam(ApplyActivity(x1, a, apps, probe1, now1), ApplyActivity(x2, a, apps, probe2, now2))
  {
    if a.Playing? {
      EnrichGameSlots(x1.game, a.name, a.rich, apps, probe1, now1);
      EnrichGameSlots(x2.game, a.name, a.rich, apps, probe2, now2);
    }
  }

  /** The probe and the clock reach the activity loop's result only through the Steam images. */
  lemma {:induction false} ActivitiesSameButSteam(r: Record, acts: seq<Activity>, apps: seq<SteamApp>,
                                                  probe1: string -> bool, now1: nat, probe2: string -> bool, now2: nat)
    ensures SameButSteam(ApplyActivities(r, acts, apps, probe1, now1), ApplyActivities(r, acts, apps, probe2, now2))
    decreases |acts|
  {
    if acts != [] {
      var init := acts[..|acts| - 1];
      ActivitiesSameButSteam(r, init, apps, probe1, now1, probe2, now2);
      ActivitySameButSteam(ApplyActivities(r, init, apps, probe1, now1), ApplyActivities(r, init, apps, probe2, now2),
                           acts[|acts| - 1], apps, probe1, now1, probe2, now2);
    }
  }

  /** A recompute depends on the old record only through identity and avatar, which it keeps:
      recomputing again from the same member, under any probe and clock, gives the record a
      single recompute under that probe and clock gives. The two recomputes differ at most in
      the Steam images, whose URLs carry the clock of each enrichment. */
  lemma RecomputeAgain(r: Record, m: Member, apps: seq<SteamApp>, probe1: string -> bool, now1: nat,
                       probe2: string -> bool, now2: nat)
    ensures Recompute(Recompute(r, m, apps, probe1, now1), m, apps, probe2, now2) == Recompute(r, m, apps, probe2, now2)
    ensures SameButSteam(Recompute(r, m, apps, probe1, now1), Recompute(r, m, apps, probe2, now2))
  {
    var s := Recompute(r, m, apps, probe1, now1);
    ActivitiesKeepOtherAttributes(ResetFromMember(r, m), m.activities, apps, probe1, now1);
    assert ResetFromMember(s, m) == ResetFromMember(r, m);
    ActivitiesSameButSteam(ResetFromMember(r, m), m.activities, apps, probe1, now1, probe2, now2);
  }

  lemma {:induction false} ActivitiesCommuteWithUser(r: Record, u: User, acts: seq<Activity>, apps: seq<SteamApp>,
                                                     probe: string -> bool, now: nat)
    ensures ApplyActivities(WithUser(r, u), acts, apps, probe, now) == WithUser(ApplyActivities(r, acts, apps, probe, now), u)
    decreases |acts|
  {
    if acts != [] {
      ActivitiesCommuteWithUser(r, u, acts[..|acts| - 1], apps, probe, now);
    }
  }

  /** The user update and the presence recompute write disjoint attributes, so their order
      does not matter. */
  lemma RecomputeCommutesWithUser(r: Record, u: User, m: Member, apps: seq<SteamApp>, probe: string -> bool, now: nat)
    ensures Recompute(WithUser(r, u), m, apps, probe, now) == WithUser(Recompute(r, m, apps, probe, now), u)
  {
    assert ResetFromMember(WithUser(r, u), m) == WithUser(ResetFromMember(r, m), u);
    ActivitiesCommuteWithUser(ResetFromMember(r, m), u, m.activities, apps, probe, now);
  }

  /** A voice update changes the voice block only; a later recompute overrides it. */
  lemma VoiceUpdateTouchesOnlyVoice(r: Record, after: VoiceState, m: Member, apps: seq<SteamApp>,
                                    probe: string -> bool, now: nat)
    ensures WithVoice(r, after).(voice := r.voice) == r
    ensures Recompute(WithVoice(r, after), m, apps, probe, now) == Recompute(r, m, apps, probe, now)
  {
    assert ResetFromMember(WithVoice(r, after), m) == ResetFromMember(r, m);
  }

  /** A user update changes what two sub-sensors show, `user_name` and `avatar_url`, and no other. */
  lemma UserUpdateSensorValues(r: Record, u: User, attr: string)
    ensures attr != "user_name" && attr != "avatar_url" ==> SensorValue(WithUser(r, u), attr) == SensorValue(r, attr)
    ensures SensorValue(WithUser(r, u), "user_name") == Some(Text(u.globalName))
    ensures SensorValue(WithUser(r, u), "avatar_url") == Some(Text(Some(u.avatarUrl)))
  {
  }

  /** A voice update changes what the voice sub-sensors show and no other sub-sensor. */
  lemma VoiceUpdateSensorValues(r: Record, after: VoiceState, attr: string)
    ensures !IsVoiceSensor(attr) ==> SensorValue(WithVoice(r, after), attr) == SensorValue(r, attr)
  {
  }

  /** A second ready event with the same caches, under any probe and clock, leaves every record
      as a single ready event under that probe and clock would: it differs from the first one's
      result only in the Steam images, and not at all under the same probe and clock. */
  lemma ReadyRecordAgain(r: Record, u: Option<User>, m: Option<Member>, apps: seq<SteamApp>,
                         probe1: string -> bool, now1: nat, probe2: string -> bool, now2: nat)
    ensures ReadyRecord(ReadyRecord(r, u, m, apps, probe1, now1), u, m, apps, probe2, now2)
            == ReadyRecord(r, u, m, apps, probe2, now2)
    ensures SameButSteam(ReadyRecord(r, u, m, apps, probe1, now1), ReadyRecord(r, u, m, apps, probe2, now2))
    ensures ReadyRecord(ReadyRecord(r, u, m, apps, probe1, now1), u, m, apps, probe1, now1)
            == ReadyRecord(r, u, m, apps, probe1, now1)
  {
    var r1 := ReadyUserStep(r, u);
    if m.Some? {
      var s := Recompute(r1, m.value, apps, probe1, now1);
      if u.Some? {
        RecomputeCommutesWithUser(s, u.value, m.value, apps, probe1, now1);
        ActivitiesKeepOtherAttributes(ResetFromMember(r1, m.value), m.value.activities, apps, probe1, now1);
        assert WithUser(s, u.value) == s;
      }
      RecomputeAgain(r1, m.value, apps, probe1, now1, probe2, now2);
      RecomputeAgain(r1, m.value, apps, probe1, now1, probe1, now1);
    }
  }
}
