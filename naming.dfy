/** Identifiers and texts the integration derives from ids and names: entity ids of the member
    entity, its per-attribute sensors and the channel entity; sensor names; the Steam CDN image
    URLs; and the snowflake guard applied to configured entries. */
module Naming {
  import opened Wrappers
  import opened Text

  const USER_ENTITY_PREFIX: string := "sensor.discord_user_"
  const CHANNEL_ENTITY_PREFIX: string := "sensor.discord_channel_"

  /** `ENTITY_ID_FORMAT.format(userid)`. */
  function UserEntityId(userid: nat): string {
    USER_ENTITY_PREFIX + Decimal(userid)
  }

  /** Entity id of the sub-sensor that shows attribute `attr` of a member entity. */
  function SensorEntityId(userid: nat, attr: string): string {
    UserEntityId(userid) + "_" + attr
  }

  /** `ENTITY_ID_CHANNEL_FORMAT.format(channel_id)`. */
  function ChannelEntityId(channelId: nat): string {
    CHANNEL_ENTITY_PREFIX + Decimal(channelId)
  }

  /** Display name of a sub-sensor: the member name, a space, the attribute name. */
  function SensorName(member: string, attr: string): (r: string)
    ensures |r| == |member| + 1 + |attr| && r[..|member|] == member && r[|member|] == ' '
    ensures r[|member| + 1..] == attr
  {
    member + " " + attr
  }

  /** The attributes that get a sub-sensor each, in the order the sensors are created. */
  const SENSORS: seq<string> := [
    "user_name", "display_name", "roles", "game", "game_state", "game_details", "game_image_small",
    "game_image_large", "game_image_small_text", "game_image_large_text", "game_image_capsule_231x87",
    "game_image_capsule_467x181", "game_image_capsule_616x353", "game_image_header",
    "game_image_hero_capsule", "game_image_library_600x900", "game_image_library_hero",
    "game_image_logo", "game_image_page_bg_raw", "streaming", "streaming_url", "streaming_details",
    "listening", "listening_url", "listening_details", "spotify_artists", "spotify_title",
    "spotify_album", "spotify_album_cover_url", "spotify_track_id", "spotify_duration",
    "spotify_start", "spotify_end", "watching", "watching_url", "watching_details", "avatar_url",
    "custom_status", "custom_emoji", "voice_channel", "voice_deaf", "voice_mute", "voice_self_deaf",
    "voice_self_mute", "voice_self_stream", "voice_self_video", "voice_afk"]

  /** Entity ids of all sub-sensors of a member entity, in SENSORS order. */
  function SensorEntityIds(userid: nat): (ids: seq<string>)
    ensures |ids| == |SENSORS|
    ensures forall i :: 0 <= i < |SENSORS| ==> ids[i] == SensorEntityId(userid, SENSORS[i])
  {
    seq(|SENSORS|, i requires 0 <= i < |SENSORS| => SensorEntityId(userid, SENSORS[i]))
  }

  lemma UserEntityIdInjective(a: nat, b: nat)
    ensures UserEntityId(a) == UserEntityId(b) ==> a == b
  {
    if UserEntityId(a) == UserEntityId(b) {
      var n := |USER_ENTITY_PREFIX|;
      assert Decimal(a) == UserEntityId(a)[n..] == UserEntityId(b)[n..] == Decimal(b);
      DecimalInjective(a, b);
    }
  }

  /** A sub-sensor id determines both the member id and the attribute it was built from. */
  lemma SensorEntityIdInjective(a: nat, x: string, b: nat, y: string)
    ensures SensorEntityId(a, x) == SensorEntityId(b, y) ==> a == b && x == y
  {
    if SensorEntityId(a, x) == SensorEntityId(b, y) {
      var n := |USER_ENTITY_PREFIX|;
      assert SensorEntityId(a, x)[n..] == Decimal(a) + ['_'] + x;
      assert SensorEntityId(b, y)[n..] == Decimal(b) + ['_'] + y;
      DigitRunsSplit(Decimal(a), Decimal(b), '_', x, y);
      DecimalInjective(a, b);
    }
  }

  /** No sub-sensor id is the id of a member entity. */
  lemma SensorEntityIdIsNotUserEntityId(a: nat, x: string, b: nat)
    ensures SensorEntityId(a, x) != UserEntityId(b)
  {
    var n := |USER_ENTITY_PREFIX|;
    var tail := Decimal(a) + ['_'] + x;
    assert SensorEntityId(a, x)[n..] == tail;
    assert UserEntityId(b)[n..] == Decimal(b);
    DigitRunEndsAtSeparator(Decimal(a), '_', x);
    DigitRunOfDigits(Decimal(b));
  }

  /** Member entities, their sub-sensors and channel entities never share an id. */
  lemma ChannelEntityIdIsNotMemberId(c: nat, u: nat, attr: string)
    ensures ChannelEntityId(c) != UserEntityId(u)
    ensures ChannelEntityId(c) != SensorEntityId(u, attr)
  {
    assert ChannelEntityId(c)[15] == 'c';
    assert UserEntityId(u)[15] == 'u';
    assert SensorEntityId(u, attr)[15] == 'u';
  }

  lemma ChannelEntityIdInjective(a: nat, b: nat)
    ensures ChannelEntityId(a) == ChannelEntityId(b) ==> a == b
  {
    if ChannelEntityId(a) == ChannelEntityId(b) {
      var n := |CHANNEL_ENTITY_PREFIX|;
      assert Decimal(a) == ChannelEntityId(a)[n..] == ChannelEntityId(b)[n..] == Decimal(b);
      DecimalInjective(a, b);
    }
  }

  const STEAM_CDN: string := "https://cdn.cloudflare.steamstatic.com/steam/apps/"

  /** The nine promotional images of a Steam app that a member record can carry. */
  datatype ImageKind =
    | Capsule231x87 | Capsule467x181 | Capsule616x353 | Header | HeroCapsule
    | Library600x900 | LibraryHero | Logo | PageBgRaw

  /** File name of the `.jpg` candidate of an image kind. */
  function JpgFile(k: ImageKind): string {
    match k
    case Capsule231x87 => "capsule_231x87.jpg"
    case Capsule467x181 => "capsule_467x181.jpg"
    case Capsule616x353 => "capsule_616x353.jpg"
    case Header => "header.jpg"
    case HeroCapsule => "hero_capsule.jpg"
    case Library600x900 => "library_600x900.jpg"
    case LibraryHero => "library_hero.jpg"
    case Logo => "logo.jpg"
    case PageBgRaw => "page_bg_raw.jpg"
  }

  /** The one `.png` candidate: the logo. */
  const LOGO_PNG_FILE: string := "logo.png"

  /** A candidate CDN URL for file `file` of Steam app `appid`, with the cache-busting timestamp. */
  function SteamImageUrl(appid: nat, file: string, timestamp: nat): string {
    STEAM_CDN + Decimal(appid) + "/" + file + "?t=" + Decimal(timestamp)
  }

  lemma {:induction false} SuffixCancel(x: string, y: string, suffix: string)
    requires x + suffix == y + suffix
    ensures x == y
  {
    assert |x| == |y|;
    assert x == (x + suffix)[..|x|] == (y + suffix)[..|y|] == y;
  }

  /** Under one shared timestamp a candidate URL names a single app and file, so each probe
      is of its own URL. */
  lemma SteamImageUrlInjective(a: nat, f: string, b: nat, g: string, timestamp: nat)
    ensures SteamImageUrl(a, f, timestamp) == SteamImageUrl(b, g, timestamp) ==> a == b && f == g
  {
    if SteamImageUrl(a, f, timestamp) == SteamImageUrl(b, g, timestamp) {
      var n := |STEAM_CDN|;
      var t := "?t=" + Decimal(timestamp);
      assert SteamImageUrl(a, f, timestamp)[n..] == Decimal(a) + ['/'] + (f + t);
      assert SteamImageUrl(b, g, timestamp)[n..] == Decimal(b) + ['/'] + (g + t);
      DigitRunsSplit(Decimal(a), Decimal(b), '/', f + t, g + t);
      DecimalInjective(a, b);
      SuffixCancel(f, g, t);
    }
  }

  /** The ten candidate files are pairwise distinct. */
  lemma CandidateFilesDistinct(k1: ImageKind, k2: ImageKind)
    ensures JpgFile(k1) == JpgFile(k2) ==> k1 == k2
    ensures JpgFile(k1) != LOGO_PNG_FILE
  {
  }

  /** Python's `re.match(r"^\d{,20}", s)` applied to a configured entry: the match is the
      longest run of at most 20 leading digits, and it always exists (possibly empty). */
  function SnowflakePrefixMatch(s: string): Option<string> {
    var n := DigitRunLength(s);
    Some(s[..if n < 20 then n else 20])
  }

  /** The match always exists: it is a prefix of at most 20 digits that stops before a
      twenty-first digit or a non-digit, so every configured entry passes the guard. */
  lemma SnowflakePrefixAlwaysMatches(s: string)
    ensures var m := SnowflakePrefixMatch(s);
      && m.Some?
      && |m.value| <= 20 && |m.value| <= |s| && m.value == s[..|m.value|] && AllDigits(m.value)
      && (|m.value| < 20 && |m.value| < |s| ==> !IsDigit(s[|m.value|]))
  {
  }
}
