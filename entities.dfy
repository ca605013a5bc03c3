/** The entity objects: `DiscordAsyncMemberState` (one per tracked member, its attributes
    updated in place by the handlers), its per-attribute sub-sensors (`GenericSensor`, given
    here by their ids and names) and `DiscordAsyncReactionState` (one per tracked channel). */
module Entities {
  import opened Wrappers
  import opened Discord
  import opened Naming
  import opened Records

  class MemberState {
    /** The user id at construction; the entity ids of the record and of its sub-sensors are
        derived from it once and do not follow later changes of `userid`. */
    const createdUserid: nat

    var member: string
    var userid: nat
    var userName: Option<string>
    var avatarUrl: Option<string>
    var state: string
    var activityState: Option<string>
    var displayName: Option<string>
    var roles: Option<seq<string>>
    var game: GameSlot
    var streaming: LinkSlot
    var listening: LinkSlot
    var spotify: SpotifySlot
    var watching: LinkSlot
    var custom: CustomSlot
    var voice: VoiceSlot

    constructor (member: string, userName: Option<string>, userid: nat)
      ensures createdUserid == userid
      ensures Snapshot() == InitialRecord(member, userName, userid)
    {
      this.createdUserid := userid;
      this.member := member;
      this.userid := userid;
      this.userName := userName;
      this.avatarUrl := None;
      this.state := "unknown";
      this.activityState := Some("unknown");
      this.displayName := None;
      this.roles := None;
      this.game := NO_GAME;
      this.streaming := NO_LINK;
      this.listening := NO_LINK;
      this.spotify := NO_SPOTIFY;
      this.watching := NO_LINK;
      this.custom := NO_CUSTOM;
      this.voice := NO_VOICE;
    }

    /** All attributes of the record as one value. */
    function Snapshot(): Record
      reads this
    {
      Record(member, userid, userName, avatarUrl, state, activityState, displayName, roles,
             game, streaming, listening, spotify, watching, custom, voice)
    }

    /** The entity id the record's state refreshes are requested for. */
    function EntityId(): string {
      UserEntityId(createdUserid)
    }

    /** The entity ids of the sub-sensors, in creation order. */
    function SensorIds(): (ids: seq<string>)
      ensures |ids| == |SENSORS|
    {
      SensorEntityIds(createdUserid)
    }

    /** No sub-sensor shares the member entity's id. */
    lemma SensorIdsExcludeEntityId()
      ensures forall i :: 0 <= i < |SensorIds()| ==> SensorIds()[i] != EntityId()
    {
      forall i | 0 <= i < |SensorIds()| ensures SensorIds()[i] != EntityId() {
        SensorEntityIdIsNotUserEntityId(createdUserid, SENSORS[i], createdUserid);
      }
    }

    /** The `name` property, which is also the record's key in the registry. */
    function Name(): string
      reads this
    {
      member
    }

    /** The `unique_id` property: derived from the current user id. */
    function UniqueId(): string
      reads this
    {
      UserEntityId(userid)
    }
  }

  class ReactionState {
    const channelName: string
    const channelId: nat
    var state: string
    var lastUser: Option<string>

    constructor (channelName: string, channelId: nat)
      ensures this.channelName == channelName && this.channelId == channelId
      ensures state == "unknown" && lastUser == None
    {
      this.channelName := channelName;
      this.channelId := channelId;
      this.state := "unknown";
      this.lastUser := None;
    }

    /** Entity id (and unique id) of the channel entity. */
    function EntityId(): string {
      ChannelEntityId(channelId)
    }

    /** The `name` property, which is also the channel's key in the registry. */
    function Name(): string {
      channelName
    }
  }
}
