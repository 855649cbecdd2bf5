/** `JellyfinDevice` (device.py): one Jellyfin session seen by Home Assistant.
    The object holds the latest raw session dict and an active flag; every
    property is computed from those two fields. The value-level functions
    below take the two fields as arguments; the class holds the fields and
    reads them. */
module Device {
  import opened PyValues

  /** The play states of const.py: STATE_OFF, STATE_IDLE, STATE_PAUSED, STATE_PLAYING. */
  datatype PlayState = Off | Idle | Paused | Playing {
    /** The string constant const.py gives the state. */
    function Name(): (r: string)
      ensures this == Off <==> r == "Off"
      ensures this == Idle <==> r == "Idle"
      ensures this == Paused <==> r == "Paused"
      ensures this == Playing <==> r == "Playing"
    {
      match this
      case Off => "Off"
      case Idle => "Idle"
      case Paused => "Paused"
      case Playing => "Playing"
    }
  }

  /** The two fields of a device as a value. */
  datatype DeviceView = DeviceView(session: map<string, Json>, active: bool)

  const NowPlayingItem: string := "NowPlayingItem"

  /** `session['PlayState']['IsPaused']`, read without any exception handler. */
  function IsPausedFlag(session: map<string, Json>): (r: Result<bool>)
    ensures r.Ok? <==> "PlayState" in session && session["PlayState"].Object?
                       && "IsPaused" in session["PlayState"].fields
    ensures r.Ok? ==> r.value == Truthy(session["PlayState"].fields["IsPaused"])
    ensures r.Err? && "PlayState" in session && !session["PlayState"].Object? ==> r.error == TypeError
    ensures r.Err? && !("PlayState" in session && !session["PlayState"].Object?) ==> r.error == KeyError
  {
    var playState :- Index(Object(session), "PlayState");
    var paused :- Index(playState, "IsPaused");
    Ok(Truthy(paused))
  }

  /** The `state` property: Off when inactive, Idle when nothing is playing,
      otherwise Paused or Playing after the session's pause flag. */
  function SessionState(session: map<string, Json>, active: bool): (r: Result<PlayState>)
    ensures r == Ok(Off) <==> !active
    ensures r == Ok(Idle) <==> active && NowPlayingItem !in session
    ensures r == Ok(Paused) <==> active && NowPlayingItem in session && IsPausedFlag(session) == Ok(true)
    ensures r == Ok(Playing) <==> active && NowPlayingItem in session && IsPausedFlag(session) == Ok(false)
    ensures r.Err? <==> active && NowPlayingItem in session && IsPausedFlag(session).Err?
  {
    if active then
      if NowPlayingItem in session then
        var paused :- IsPausedFlag(session);
        if paused then Ok(Paused) else Ok(Playing)
      else Ok(Idle)
    else Ok(Off)
  }

  /** The `is_nowplaying` property: false for Idle and Off, true otherwise. */
  function IsNowPlaying(session: map<string, Json>, active: bool): Result<bool> {
    var state :- SessionState(session, active);
    Ok(!(state.Name() == "Idle" || state.Name() == "Off"))
  }

  /** Something is playing exactly when the state is Paused or Playing; the
      property fails exactly when the state does. */
  lemma NowPlayingIffPausedOrPlaying(session: map<string, Json>, active: bool)
    ensures IsNowPlaying(session, active) == Ok(true) <==>
              SessionState(session, active) in {Ok(Paused), Ok(Playing)}
    ensures IsNowPlaying(session, active) == Ok(false) <==>
              SessionState(session, active) in {Ok(Idle), Ok(Off)}
    ensures IsNowPlaying(session, active).Err? <==> SessionState(session, active).Err?
    ensures IsNowPlaying(session, active) == Ok(true) ==> active && NowPlayingItem in session
  {
    match SessionState(session, active)
    case Ok(s) =>
      assert Off.Name() == "Off" && Idle.Name() == "Idle";
      assert Paused.Name() == "Paused" && Playing.Name() == "Playing";
    case Err(_) =>
  }

  /** An inactive device is Off and plays nothing, whatever its session holds. */
  lemma InactiveIsOff(session: map<string, Json>)
    ensures SessionState(session, false) == Ok(Off)
    ensures IsNowPlaying(session, false) == Ok(false)
  {
    NowPlayingIffPausedOrPlaying(session, false);
  }

  /** A one-level accessor (`session_id`, `unique_id`, `name`, `client`,
      `username`): the session's value, or None when the key is absent. */
  function SessionField(session: map<string, Json>, key: string): (r: Json)
    ensures key in session ==> r == session[key]
    ensures key !in session ==> r == Null
  {
    if key in session then session[key] else Null
  }

  /** `session['NowPlayingItem'][key]` under `except KeyError`: the value, None
      when either key is absent, a TypeError when the item is not a dict. */
  function NowPlayingLookup(session: map<string, Json>, key: string): (r: Result<Option<Json>>)
    ensures NowPlayingItem !in session ==> r == Ok(None)
    ensures NowPlayingItem in session && !session[NowPlayingItem].Object? ==> r == Err(TypeError)
    ensures NowPlayingItem in session && session[NowPlayingItem].Object? ==>
              r == if key in session[NowPlayingItem].fields
                   then Ok(Some(session[NowPlayingItem].fields[key])) else Ok(None)
  {
    if NowPlayingItem !in session then Ok(None)
    else match Get(session[NowPlayingItem], key)
      case Found(v) => Ok(Some(v))
      case Missing => Ok(None)
      case NotSubscriptable => Err(TypeError)
  }

  /** What a two-level accessor promises: None when nothing is playing or the
      item lacks `key`, the item's value otherwise, and a TypeError when the
      playing item is not a dict. */
  ghost predicate TwoLevel(session: map<string, Json>, key: string, r: Result<Json>) {
    && (NowPlayingItem !in session ==> r == Ok(Null))
    && (NowPlayingItem in session && !session[NowPlayingItem].Object? ==> r == Err(TypeError))
    && (NowPlayingItem in session && session[NowPlayingItem].Object? ==>
          r == Ok(SessionField(session[NowPlayingItem].fields, key)))
  }

  /** A two-level accessor (`media_title`, `media_season`, `media_series_title`,
      `media_episode`, `media_album_name`, `media_album_artist`, `media_id`,
      `media_type`): None stands for the caught KeyError. */
  function NowPlayingField(session: map<string, Json>, key: string): (r: Result<Json>)
    ensures r.Err? <==> NowPlayingLookup(session, key).Err?
    ensures r.Ok? && NowPlayingLookup(session, key).value.Some? ==> r.value == NowPlayingLookup(session, key).value.value
    ensures r.Ok? && NowPlayingLookup(session, key).value.None? ==> r.value == Null
    ensures TwoLevel(session, key, r)
  {
    var found :- NowPlayingLookup(session, key);
    Ok(if found.Some? then found.value else Null)
  }

  /** `artists[0] if len(artists) > 1 else artists`, with the `except KeyError`
      around it: a dict of more than one entry has no key 0, so its KeyError
      is caught and gives None; a value without len() raises TypeError. */
  function ArtistOf(artists: Json): (r: Result<Json>)
    ensures artists.Array? ==> r == Ok(if |artists.items| > 1 then artists.items[0] else artists)
    ensures artists.Str? ==> r == Ok(if |artists.s| > 1 then Str([artists.s[0]]) else artists)
    ensures artists.Object? ==> r == Ok(if |artists.fields| > 1 then Null else artists)
    ensures r.Err? <==> !(artists.Array? || artists.Str? || artists.Object?)
  {
    match artists
    case Array(items) => Ok(if |items| > 1 then items[0] else artists)
    case Str(s) => Ok(if |s| > 1 then Str([s[0]]) else artists)
    case Object(m) => Ok(if |m| > 1 then Null else artists)
    case _ => Err(TypeError)
  }

  /** The `media_artist` property: None without a playing item or without
      Artists; a TypeError when the item is not a dict or the artists have no len(). */
  function MediaArtist(session: map<string, Json>): (r: Result<Json>)
    ensures NowPlayingLookup(session, "Artists") == Ok(None) ==> r == Ok(Null)
    ensures r.Err? <==> NowPlayingLookup(session, "Artists").Err?
                        || (NowPlayingLookup(session, "Artists").value.Some?
                            && !(NowPlayingLookup(session, "Artists").value.value.Array?
                                 || NowPlayingLookup(session, "Artists").value.value.Str?
                                 || NowPlayingLookup(session, "Artists").value.value.Object?))
    ensures r.Err? ==> r.error == TypeError
  {
    var artists :- NowPlayingLookup(session, "Artists");
    if artists.None? then Ok(Null) else ArtistOf(artists.value)
  }

  /** With a list of artists, `media_artist` is its first element when there are
      several and the whole list otherwise; with no Artists it is None. */
  lemma MediaArtistOfList(session: map<string, Json>, artists: seq<Json>)
    requires NowPlayingItem in session && session[NowPlayingItem].Object?
    requires "Artists" in session[NowPlayingItem].fields
    requires session[NowPlayingItem].fields["Artists"] == Array(artists)
    ensures |artists| > 1 ==> MediaArtist(session) == Ok(artists[0])
    ensures |artists| <= 1 ==> MediaArtist(session) == Ok(Array(artists))
  {
  }

  lemma MediaArtistMissing(session: map<string, Json>)
    requires NowPlayingItem !in session ||
             (session[NowPlayingItem].Object? && "Artists" !in session[NowPlayingItem].fields)
    ensures MediaArtist(session) == Ok(Null)
  {
  }

  /** The call `server.api.artwork(media_id, image_type, 500)` that produces the
      image URL; the URL itself is built by the vendor client. */
  datatype ArtworkRequest = ArtworkRequest(mediaId: Json, imageType: string, maxWidth: nat)

  const ArtworkWidth: nat := 500

  /** The image tag `media_image_url` picks: Thumb when
      `NowPlayingItem.ImageTags.Thumb` exists, else Primary when
      `NowPlayingItem.ImageTags.Primary` exists, else none. A KeyError in the
      first lookup falls back to the second, which walks the same dicts and so
      can only raise a KeyError itself; a TypeError is not caught. */
  function ImageType(session: map<string, Json>): (r: Result<Option<string>>)
    ensures var tags := NowPlayingLookup(session, "ImageTags");
            r.Err? <==> tags.Err? || (tags.value.Some? && !tags.value.value.Object?)
    ensures var tags := NowPlayingLookup(session, "ImageTags");
            r == Ok(Some("Thumb")) <==>
              (tags.Ok? && tags.value.Some? && tags.value.value.Object? && "Thumb" in tags.value.value.fields)
    ensures var tags := NowPlayingLookup(session, "ImageTags");
            r == Ok(Some("Primary")) <==>
              (tags.Ok? && tags.value.Some? && tags.value.value.Object?
               && "Thumb" !in tags.value.value.fields && "Primary" in tags.value.value.fields)
    ensures r.Ok? && r.value.Some? ==> r.value.value in {"Thumb", "Primary"}
  {
    var tags :- NowPlayingLookup(session, "ImageTags");
    if tags.None? then Ok(None)
    else match Get(tags.value, "Thumb")
      case Found(_) => Ok(Some("Thumb"))
      case NotSubscriptable => Err(TypeError)
      case Missing => if Get(tags.value, "Primary").Found? then Ok(Some("Primary")) else Ok(None)
  }

  /** The `media_image_url` property, as the artwork request it issues. */
  function MediaImage(session: map<string, Json>, active: bool): (r: Result<Option<ArtworkRequest>>)
    ensures IsNowPlaying(session, active) == Ok(false) ==> r == Ok(None)
    ensures IsNowPlaying(session, active).Err? ==> r.Err?
    ensures r.Ok? && r.value.Some? ==>
              && IsNowPlaying(session, active) == Ok(true)
              && ImageType(session) == Ok(Some(r.value.value.imageType))
              && NowPlayingField(session, "Id") == Ok(r.value.value.mediaId)
              && r.value.value.maxWidth == ArtworkWidth
  {
    var playing :- IsNowPlaying(session, active);
    if !playing then Ok(None)
    else
      var imageType :- ImageType(session);
      if imageType.None? then Ok(None)
      else
        var mediaId :- NowPlayingField(session, "Id");
        Ok(Some(ArtworkRequest(mediaId, imageType.value, ArtworkWidth)))
  }

  /** No image unless something is playing. */
  lemma NoImageWhenNotPlaying(session: map<string, Json>, active: bool)
    requires SessionState(session, active) in {Ok(Idle), Ok(Off)}
    ensures MediaImage(session, active) == Ok(None)
  {
    NowPlayingIffPausedOrPlaying(session, active);
  }

  /** While playing, the Thumb tag wins over Primary, Primary is used without a
      Thumb, and with neither tag, or with no ImageTags at all, there is no
      image; the request carries the playing item's Id. A playing item or an
      ImageTags value that is not a dict raises TypeError. */
  lemma ImageTagChoice(session: map<string, Json>, active: bool)
    requires SessionState(session, active) in {Ok(Paused), Ok(Playing)}
    ensures !session[NowPlayingItem].Object? ==> MediaImage(session, active) == Err(TypeError)
    ensures var item := session[NowPlayingItem];
            item.Object? && "ImageTags" !in item.fields ==> MediaImage(session, active) == Ok(None)
    ensures var item := session[NowPlayingItem];
            item.Object? && "ImageTags" in item.fields && !item.fields["ImageTags"].Object? ==>
              MediaImage(session, active) == Err(TypeError)
    ensures var item := session[NowPlayingItem];
            item.Object? && "ImageTags" in item.fields && item.fields["ImageTags"].Object? ==>
              var tags := item.fields["ImageTags"].fields;
              && ("Thumb" in tags ==>
                    MediaImage(session, active)
                    == Ok(Some(ArtworkRequest(SessionField(item.fields, "Id"), "Thumb", ArtworkWidth))))
              && ("Thumb" !in tags && "Primary" in tags ==>
                    MediaImage(session, active)
                    == Ok(Some(ArtworkRequest(SessionField(item.fields, "Id"), "Primary", ArtworkWidth))))
              && ("Thumb" !in tags && "Primary" !in tags ==> MediaImage(session, active) == Ok(None))
  {
    NowPlayingIffPausedOrPlaying(session, active);
  }

  /** `int(pos * 10000000)`: positions are given in whole seconds. */
  const TicksPerSecond: int := 10000000

  /** The parameters `set_playstate` sends: a seek carries the target position
      in ticks and `static='true'`; every other command sends none. */
  function PlaystateParams(command: string, position: int): (r: map<string, Json>)
    ensures command != "Seek" ==> r == map[]
    ensures command == "Seek" ==> r.Keys == {"SeekPositionTicks", "static"}
    ensures command == "Seek" ==> r["SeekPositionTicks"] == Int(position * TicksPerSecond)
    ensures command == "Seek" ==> r["static"] == Str("true")
  {
    if command == "Seek" then
      map["SeekPositionTicks" := Int(position * TicksPerSecond), "static" := Str("true")]
    else map[]
  }

  /** The call `server.set_playstate(session_id, state, params)`. */
  datatype PlaystateRequest = PlaystateRequest(sessionId: Json, command: string, params: map<string, Json>)

  /** State that the class's methods update in place: `update_data` replaces the
      session, `set_active` the active flag. The server the device talks to is
      not held: its calls are returned as request values. */
  class JellyfinDevice {
    var session: map<string, Json>
    var isActive: bool

    /** A new device is active and holds the session it was made from. */
    constructor(session: map<string, Json>)
      ensures this.session == session
      ensures isActive
    {
      this.session := session;
      isActive := true;
    }

    method UpdateData(session: map<string, Json>)
      modifies this
      ensures this.session == session
      ensures isActive == old(isActive)
    {
      this.session := session;
    }

    method SetActive(active: bool)
      modifies this
      ensures isActive == active
      ensures session == old(session)
    {
      isActive := active;
    }

    function View(): DeviceView
      reads this
    {
      DeviceView(session, isActive)
    }

    function SessionRaw(): map<string, Json>
      reads this
    {
      session
    }

    function SessionId(): (r: Json)
      reads this
      ensures "Id" in session ==> r == session["Id"]
      ensures "Id" !in session ==> r == Null
    {
      SessionField(session, "Id")
    }

    function UniqueId(): (r: Json)
      reads this
      ensures "DeviceId" in session ==> r == session["DeviceId"]
      ensures "DeviceId" !in session ==> r == Null
    {
      SessionField(session, "DeviceId")
    }

    function Name(): (r: Json)
      reads this
      ensures "DeviceName" in session ==> r == session["DeviceName"]
      ensures "DeviceName" !in session ==> r == Null
    {
      SessionField(session, "DeviceName")
    }

    function Client(): (r: Json)
      reads this
      ensures "Client" in session ==> r == session["Client"]
      ensures "Client" !in session ==> r == Null
    {
      SessionField(session, "Client")
    }

    function UserName(): (r: Json)
      reads this
      ensures "UserName" in session ==> r == session["UserName"]
      ensures "UserName" !in session ==> r == Null
    {
      SessionField(session, "UserName")
    }

    function MediaTitle(): (r: Result<Json>)
      reads this
      ensures TwoLevel(session, "Name", r)
    {
      NowPlayingField(session, "Name")
    }

    function MediaSeason(): (r: Result<Json>)
      reads this
      ensures TwoLevel(session, "ParentIndexNumber", r)
    {
      NowPlayingField(session, "ParentIndexNumber")
    }

    function MediaSeriesTitle(): (r: Result<Json>)
      reads this
      ensures TwoLevel(session, "SeriesName", r)
    {
      NowPlayingField(session, "SeriesName")
    }

    function MediaEpisode(): (r: Result<Json>)
      reads this
      ensures TwoLevel(session, "IndexNumber", r)
    {
      NowPlayingField(session, "IndexNumber")
    }

    function MediaAlbumName(): (r: Result<Json>)
      reads this
      ensures TwoLevel(session, "Album", r)
    {
      NowPlayingField(session, "Album")
    }

    function MediaArtistOf(): Result<Json> reads this { MediaArtist(session) }

    function MediaAlbumArtist(): (r: Result<Json>)
      reads this
      ensures TwoLevel(session, "AlbumArtist", r)
    {
      NowPlayingField(session, "AlbumArtist")
    }

    function MediaId(): (r: Result<Json>)
      reads this
      ensures TwoLevel(session, "Id", r)
    {
      NowPlayingField(session, "Id")
    }

    function MediaType(): (r: Result<Json>)
      reads this
      ensures TwoLevel(session, "Type", r)
    {
      NowPlayingField(session, "Type")
    }

    function MediaImageUrl(): Result<Option<ArtworkRequest>> reads this { MediaImage(session, isActive) }

    function State(): Result<PlayState> reads this { SessionState(session, isActive) }
    function NowPlaying(): Result<bool> reads this { IsNowPlaying(session, isActive) }

    /** `session['SupportsRemoteControl']`, with no exception handler. */
    function SupportsRemoteControl(): (r: Result<Json>)
      reads this
      ensures "SupportsRemoteControl" in session ==> r == Ok(session["SupportsRemoteControl"])
      ensures "SupportsRemoteControl" !in session ==> r == Err(KeyError)
    {
      Index(Object(session), "SupportsRemoteControl")
    }

    /** `set_playstate(state, pos)`: the request sent for this device's session. */
    function SetPlaystate(command: string, position: int): (r: PlaystateRequest)
      reads this
      ensures r.sessionId == SessionId() && r.command == command
      ensures r.params == PlaystateParams(command, position)
    {
      PlaystateRequest(SessionId(), command, PlaystateParams(command, position))
    }

    function MediaPlay(): PlaystateRequest reads this { SetPlaystate("Unpause", 0) }
    function MediaPause(): PlaystateRequest reads this { SetPlaystate("Pause", 0) }
    function MediaStop(): PlaystateRequest reads this { SetPlaystate("Stop", 0) }
    function MediaNext(): PlaystateRequest reads this { SetPlaystate("NextTrack", 0) }
    function MediaPrevious(): PlaystateRequest reads this { SetPlaystate("PreviousTrack", 0) }
    function MediaSeek(position: int): PlaystateRequest reads this { SetPlaystate("Seek", position) }
  }

  /** Only a seek sends parameters: the transport commands other than seek send the
      command name with empty params, and a seek sends the position in ticks. */
  lemma TransportCommands(d: JellyfinDevice, position: int)
    ensures d.MediaPlay() == PlaystateRequest(d.SessionId(), "Unpause", map[])
    ensures d.MediaPause() == PlaystateRequest(d.SessionId(), "Pause", map[])
    ensures d.MediaStop() == PlaystateRequest(d.SessionId(), "Stop", map[])
    ensures d.MediaNext() == PlaystateRequest(d.SessionId(), "NextTrack", map[])
    ensures d.MediaPrevious() == PlaystateRequest(d.SessionId(), "PreviousTrack", map[])
    ensures d.MediaSeek(position).command == "Seek"
    ensures d.MediaSeek(position).params["SeekPositionTicks"] == Int(position * TicksPerSecond)
  {
  }
}
