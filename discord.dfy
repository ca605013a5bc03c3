/** What the chat client hands to the event handlers: users, guild members with their
    presence, voice states and activities, channels, and the Steam catalog entries.
    Only the attributes the handlers read are kept. */
module Discord {
  import opened Wrappers

  datatype Role = Role(name: string)

  datatype VoiceChannel = VoiceChannel(name: string)

  /** A member's voice state; `channel` is None when the member is not in a voice channel. */
  datatype VoiceState = VoiceState(
    channel: Option<VoiceChannel>,
    deaf: bool,
    mute: bool,
    selfDeaf: bool,
    selfMute: bool,
    selfStream: bool,
    selfVideo: bool,
    afk: bool)

  /** The rich-presence attributes a full `Activity` object carries and a `Game` object lacks. */
  datatype RichPresence = RichPresence(
    state: Option<string>,
    details: Option<string>,
    smallImageUrl: Option<string>,
    largeImageUrl: Option<string>,
    smallImageText: Option<string>,
    largeImageText: Option<string>)

  /** One entry of a member's activity list, classified by its activity type.
      `Playing.rich` is None for a `Game` object (no `state`, `details` or image attributes)
      and Some for an `Activity` object of type playing. `Spotify` is the Spotify subclass of a
      listening activity; its duration, start and end are carried as their `str(...)` text.
      `Unrecognized` is any other activity type (competing, unknown). */
  datatype Activity =
    | Playing(name: Option<string>, rich: Option<RichPresence>)
    | Streaming(name: Option<string>, details: Option<string>, url: Option<string>)
    | Spotify(
        title: string,
        artists: seq<string>,
        album: string,
        albumCoverUrl: string,
        trackId: string,
        duration: string,
        start: string,
        end: string)
    | Listening(name: Option<string>, state: Option<string>, details: Option<string>, url: Option<string>)
    | Watching(name: Option<string>, state: Option<string>, details: Option<string>, url: Option<string>)
    | Custom(name: Option<string>, state: Option<string>, emojiName: Option<string>)
    | Unrecognized(activityType: int)

  /** A chat user. `key` is `"{}".format(user)`, the string the handlers look records up by;
      `avatarUrl` is the rendered URL of the display avatar at size 1024 in the configured
      image format. */
  datatype User = User(key: string, id: nat, name: string, globalName: Option<string>, avatarUrl: string)

  /** A guild member. `key` is `"{}".format(member)`; `status` is the text of its status. */
  datatype Member = Member(
    key: string,
    status: string,
    roles: seq<Role>,
    displayName: string,
    voice: Option<VoiceState>,
    activities: seq<Activity>)

  /** A guild channel as returned by fetch_channel. */
  datatype Channel = Channel(id: nat, name: string)

  /** One entry of the Steam application list. */
  datatype SteamApp = SteamApp(appid: nat, name: string)

  /** The five activity slots of a member record. */
  datatype Kind = PlayingKind | StreamingKind | ListeningKind | WatchingKind | CustomKind

  /** The slot an activity fills, or None for an activity type the handlers skip.
      A Spotify activity is a listening activity. */
  function KindOf(a: Activity): Option<Kind> {
    match a
    case Playing(_, _) => Some(PlayingKind)
    case Streaming(_, _, _) => Some(StreamingKind)
    case Spotify(_, _, _, _, _, _, _, _) => Some(ListeningKind)
    case Listening(_, _, _, _) => Some(ListeningKind)
    case Watching(_, _, _, _) => Some(WatchingKind)
    case Custom(_, _, _) => Some(CustomKind)
    case Unrecognized(_) => None
  }

  /** The activities that write the shared `activity_state` attribute. */
  predicate SetsActivityState(a: Activity) {
    a.Listening? || a.Watching? || a.Custom?
  }

  /** The last activity of a list that satisfies p (the one whose writes survive the loop). */
  function LastWhere(acts: seq<Activity>, p: Activity -> bool): (r: Option<Activity>)
    ensures r.Some? ==> r.value in acts && p(r.value)
    ensures r.Some? ==> exists i :: 0 <= i < |acts| && acts[i] == r.value && forall j :: i < j < |acts| ==> !p(acts[j])
    ensures r.None? ==> forall i :: 0 <= i < |acts| ==> !p(acts[i])
    decreases |acts|
  {
    if acts == [] then None
    else if p(acts[|acts| - 1]) then Some(acts[|acts| - 1])
    else
      var init := acts[..|acts| - 1];
      var r := LastWhere(init, p);
      assert r.Some? ==> exists i :: 0 <= i < |init| && init[i] == r.value && forall j :: i < j < |acts| ==> !p(acts[j]);
      r
  }

  function LastOfKind(acts: seq<Activity>, k: Kind): Option<Activity> {
    LastWhere(acts, a => KindOf(a) == Some(k))
  }
}
