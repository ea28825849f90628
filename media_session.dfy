/**
 * The Android media-session controller
 * (packages/client/android/app/src/main/java/com/tearleads/rapid/MediaSessionController.java):
 * a singleton holding a nullable platform media session, the published
 * playback-state constant, the browse catalog and a transport-action listener.
 *
 * The platform session is a record (its metadata, its playback state and its
 * active flag); calls to the listener are recorded, in order, in `deliveries`.
 */
module MediaSession {
  import opened Wrappers

  /** Java `long`. */
  type Long = x: int | -0x8000_0000_0000_0000 <= x < 0x8000_0000_0000_0000

  // `PlaybackStateCompat` state constants.
  const StateNone := 0
  const StatePaused := 2
  const StatePlaying := 3

  // `PlaybackStateCompat` action bits.
  const ActionStop: bv64 := 1
  const ActionPause: bv64 := 2
  const ActionPlay: bv64 := 4
  const ActionSkipToPrevious: bv64 := 16
  const ActionSkipToNext: bv64 := 32
  const ActionSeekTo: bv64 := 256
  const ActionPlayPause: bv64 := 512

  /** The actions every published playback state advertises. */
  const TransportActions: bv64 :=
    ActionPlay | ActionPause | ActionPlayPause | ActionSkipToNext | ActionSkipToPrevious | ActionStop | ActionSeekTo

  // `MediaBrowserCompat.MediaItem` flags.
  const FlagBrowsable := 1
  const FlagPlayable := 2

  // `KeyEvent` constants.
  const KeyActionDown := 0
  const KeycodeMediaPlayPause := 85

  const RootId := "rapid.root"
  const TracksId := "rapid.tracks"

  /** `Character.isWhitespace`, which `String.isBlank` uses. */
  predicate IsWhitespace(c: char) {
    || ('\t' <= c <= '\r')
    || ('\U{1C}' <= c <= '\U{1F}')
    || c == ' '
    || c == '\U{1680}'
    || ('\U{2000}' <= c <= '\U{2006}')
    || ('\U{2008}' <= c <= '\U{200A}')
    || c == '\U{2028}' || c == '\U{2029}' || c == '\U{205F}' || c == '\U{3000}'
  }

  /** `String.isBlank`: empty, or whitespace only. */
  predicate IsBlank(s: string) {
    forall i :: 0 <= i < |s| ==> IsWhitespace(s[i])
  }

  /** `MediaCatalogTrack`. */
  datatype MediaCatalogTrack = MediaCatalogTrack(id: string, title: string, artist: string, album: string, durationMs: Long)

  /** Session metadata: the keys that were put, each present or absent. */
  datatype Metadata = Metadata(title: string, artist: Option<string>, album: Option<string>, durationMs: Option<Long>)

  /**
   * A published playback state: the advertised actions, the state constant,
   * the position, and whether the position advances (speed 1 rather than 0).
   */
  datatype PlaybackState = PlaybackState(actions: bv64, state: int, positionMs: Long, advancing: bool)

  /** The platform media session as the controller drives it. */
  datatype Session = Session(metadata: Option<Metadata>, playback: Option<PlaybackState>, active: bool)

  datatype Description = Description(mediaId: string, title: string, subtitle: Option<string>, description: Option<string>)
  datatype MediaItem = MediaItem(description: Description, flags: int)

  /** The arguments of one `onTransportAction` call. */
  datatype TransportEvent = TransportEvent(action: string, positionMs: Option<Long>, mediaId: Option<string>)

  /** A transport-action listener, identified by a token. */
  datatype Listener = Listener(token: nat)

  /** One call of the listener. */
  datatype Delivery = Delivery(listener: Listener, event: TransportEvent)

  /** The transport callbacks the session invokes. */
  datatype Callback =
    | Play
    | Pause
    | SkipToNext
    | SkipToPrevious
    | Stop
    | SeekTo(positionMs: Long)
    | PlayFromMediaId(mediaId: string)

  datatype KeyEvent = KeyEvent(action: int, keyCode: int)

  /** The playback state `publishPlaybackState` publishes. */
  function Published(isPlaying: bool, positionMs: Long): (p: PlaybackState)
    ensures p.actions == TransportActions
    ensures p.state == StatePlaying <==> isPlaying
    ensures p.state == StatePaused <==> !isPlaying
    ensures p.positionMs >= 0 && p.positionMs >= positionMs
    ensures positionMs >= 0 ==> p.positionMs == positionMs
    ensures positionMs < 0 ==> p.positionMs == 0
    ensures p.advancing <==> isPlaying
  {
    PlaybackState(TransportActions, if isPlaying then StatePlaying else StatePaused,
                  if positionMs > 0 then positionMs else 0, isPlaying)
  }

  /** The playback state `clearMetadata` publishes: NONE at position 0. */
  const ClearedPlayback := PlaybackState(TransportActions, StateNone, 0, false)

  /** The metadata `updateMetadata` builds. */
  function BuildMetadata(title: string, artist: string, album: string, durationMs: Long): (m: Metadata)
    ensures m.title == title
    ensures m.artist.Some? <==> !IsBlank(artist)
    ensures m.album.Some? <==> !IsBlank(album)
    ensures m.durationMs.Some? <==> durationMs > 0
    ensures m.artist.GetOr(artist) == artist && m.album.GetOr(album) == album
    ensures m.durationMs.GetOr(durationMs) == durationMs
  {
    Metadata(title,
             if IsBlank(artist) then None else Some(artist),
             if IsBlank(album) then None else Some(album),
             if durationMs > 0 then Some(durationMs) else None)
  }

  /** The single item under the root: the browsable "Tracks" folder. */
  const RootItem := MediaItem(Description(TracksId, "Tracks", None, None), FlagBrowsable)

  /** The playable item for one catalog track. */
  function TrackItem(t: MediaCatalogTrack): (item: MediaItem)
    ensures item.flags == FlagPlayable
    ensures item.description.mediaId == t.id && item.description.title == t.title
    ensures item.description.subtitle.None? <==> IsBlank(t.artist)
    ensures item.description.description.None? <==> IsBlank(t.album)
    ensures item.description.subtitle.GetOr(t.artist) == t.artist
    ensures item.description.description.GetOr(t.album) == t.album
  {
    MediaItem(Description(t.id, t.title,
                          if IsBlank(t.artist) then None else Some(t.artist),
                          if IsBlank(t.album) then None else Some(t.album)),
              FlagPlayable)
  }

  /** The event each transport callback emits. */
  function EventFor(cb: Callback): (e: TransportEvent)
    ensures e.action == "play" <==> cb.Play? || cb.PlayFromMediaId?
    ensures e.positionMs.Some? <==> cb.SeekTo?
    ensures e.mediaId.Some? <==> cb.PlayFromMediaId?
    ensures cb.Play? ==> e == TransportEvent("play", None, None)
    ensures cb.Pause? ==> e == TransportEvent("pause", None, None)
    ensures cb.SkipToNext? ==> e == TransportEvent("next", None, None)
    ensures cb.SkipToPrevious? ==> e == TransportEvent("previous", None, None)
    ensures cb.Stop? ==> e == TransportEvent("stop", None, None)
    ensures cb.SeekTo? ==> e == TransportEvent("seekTo", Some(cb.positionMs), None)
    ensures cb.PlayFromMediaId? ==> e == TransportEvent("play", None, Some(cb.mediaId))
  {
    match cb
    case Play => TransportEvent("play", None, None)
    case Pause => TransportEvent("pause", None, None)
    case SkipToNext => TransportEvent("next", None, None)
    case SkipToPrevious => TransportEvent("previous", None, None)
    case Stop => TransportEvent("stop", None, None)
    case SeekTo(p) => TransportEvent("seekTo", Some(p), None)
    case PlayFromMediaId(id) => TransportEvent("play", None, Some(id))
  }

  /** Different callbacks without arguments emit different actions. */
  lemma EventForDistinguishes(a: Callback, b: Callback)
    requires !a.SeekTo? && !a.PlayFromMediaId? && !b.SeekTo? && !b.PlayFromMediaId?
    requires EventFor(a) == EventFor(b)
    ensures a == b
  {
    match a
    case Play => assert EventFor(b).action == "play";
    case Pause => assert EventFor(b).action == "pause";
    case SkipToNext => assert EventFor(b).action == "next";
    case SkipToPrevious => assert EventFor(b).action == "previous";
    case Stop => assert EventFor(b).action == "stop";
  }

  /** Only a key-down of the play/pause key is handled by the controller itself. */
  predicate IsPlayPauseDown(keyEvent: Option<KeyEvent>) {
    keyEvent.Some? && keyEvent.value.action == KeyActionDown && keyEvent.value.keyCode == KeycodeMediaPlayPause
  }

  const TogglePlayPause := TransportEvent("togglePlayPause", None, None)

  /** The playback state agrees with the state constant the controller keeps. */
  predicate Agrees(p: PlaybackState, state: int) {
    && p.actions == TransportActions
    && p.state == state
    && p.positionMs >= 0
    && (p.advancing <==> state == StatePlaying)
  }

  class MediaSessionController {
    var session: Option<Session>
    var currentPlaybackState: int
    var listener: Option<Listener>
    var catalogTracks: seq<MediaCatalogTrack>
    /** Every call made to the listener, oldest first. */
    var deliveries: seq<Delivery>

    /**
     * The state constant is NONE, PAUSED or PLAYING; it is NONE until a
     * session exists and a playback state is published, and every published
     * playback state agrees with it and carries the transport actions.
     */
    ghost predicate Valid()
      reads this
    {
      && (currentPlaybackState == StateNone || currentPlaybackState == StatePaused || currentPlaybackState == StatePlaying)
      && (session.None? ==> currentPlaybackState == StateNone)
      && (session.Some? && session.value.playback.None? ==> currentPlaybackState == StateNone)
      && (session.Some? && session.value.playback.Some? ==> Agrees(session.value.playback.value, currentPlaybackState))
    }

    constructor ()
      ensures Valid()
      ensures session.None? && currentPlaybackState == StateNone && listener.None?
      ensures catalogTracks == [] && deliveries == []
    {
      session := None;
      currentPlaybackState := StateNone;
      listener := None;
      catalogTracks := [];
      deliveries := [];
    }

    /**
     * `initialize`: the first call creates an active session and publishes
     * PAUSED at position 0; later calls change nothing.
     */
    method Initialize()
      requires Valid()
      modifies this
      ensures Valid()
      ensures old(session).Some? ==> session == old(session) && currentPlaybackState == old(currentPlaybackState)
      ensures old(session).None? ==>
        && session == Some(Session(None, Some(Published(false, 0)), true))
        && currentPlaybackState == StatePaused
      ensures listener == old(listener) && catalogTracks == old(catalogTracks) && deliveries == old(deliveries)
    {
      if session.Some? {
        return;
      }
      session := Some(Session(None, None, true));
      PublishPlaybackState(false, 0);
    }

    /** `setTransportActionListener`. */
    method SetTransportActionListener(l: Option<Listener>)
      modifies this
      ensures listener == l
      ensures session == old(session) && currentPlaybackState == old(currentPlaybackState)
      ensures catalogTracks == old(catalogTracks) && deliveries == old(deliveries)
    {
      listener := l;
    }

    /**
     * `publishPlaybackState`: without a session nothing happens; otherwise
     * PLAYING or PAUSED is published at the clamped position and the session
     * is made active.
     */
    method PublishPlaybackState(isPlaying: bool, positionMs: Long)
      requires Valid()
      modifies this
      ensures Valid()
      ensures old(session).None? ==> session == old(session) && currentPlaybackState == old(currentPlaybackState)
      ensures old(session).Some? ==>
        && currentPlaybackState == (if isPlaying then StatePlaying else StatePaused)
        && session == Some(old(session).value.(playback := Some(Published(isPlaying, positionMs)), active := true))
      ensures listener == old(listener) && catalogTracks == old(catalogTracks) && deliveries == old(deliveries)
    {
      if session.None? {
        return;
      }
      currentPlaybackState := if isPlaying then StatePlaying else StatePaused;
      var playbackState := Published(isPlaying, positionMs);
      session := Some(session.value.(playback := Some(playbackState)));
      session := Some(session.value.(active := true));
    }

    /** `updatePlaybackState`: publishes the given state. */
    method UpdatePlaybackState(isPlaying: bool, positionMs: Long)
      requires Valid()
      modifies this
      ensures Valid()
      ensures old(session).None? ==> session == old(session) && currentPlaybackState == old(currentPlaybackState)
      ensures old(session).Some? ==>
        && currentPlaybackState == (if isPlaying then StatePlaying else StatePaused)
        && session == Some(old(session).value.(playback := Some(Published(isPlaying, positionMs)), active := true))
      ensures listener == old(listener) && catalogTracks == old(catalogTracks) && deliveries == old(deliveries)
    {
      PublishPlaybackState(isPlaying, positionMs);
    }

    /**
     * `updateMetadata`: without a session nothing happens; otherwise the
     * built metadata replaces the old and the session is made active.
     */
    method UpdateMetadata(title: string, artist: string, album: string, durationMs: Long)
      requires Valid()
      modifies this
      ensures Valid()
      ensures old(session).None? ==> session == old(session)
      ensures old(session).Some? ==>
        session == Some(old(session).value.(metadata := Some(BuildMetadata(title, artist, album, durationMs)), active := true))
      ensures currentPlaybackState == old(currentPlaybackState)
      ensures listener == old(listener) && catalogTracks == old(catalogTracks) && deliveries == old(deliveries)
    {
      if session.None? {
        return;
      }
      var metadata := BuildMetadata(title, artist, album, durationMs);
      session := Some(session.value.(metadata := Some(metadata)));
      session := Some(session.value.(active := true));
    }

    /** `updateCatalogTracks`: the catalog becomes the given list. */
    method UpdateCatalogTracks(tracks: seq<MediaCatalogTrack>)
      modifies this
      ensures catalogTracks == tracks
      ensures session == old(session) && currentPlaybackState == old(currentPlaybackState)
      ensures listener == old(listener) && deliveries == old(deliveries)
    {
      catalogTracks := tracks;
    }

    /**
     * `loadChildren`: the root holds the tracks folder, the folder holds one
     * playable item per catalog track in catalog order, anything else is empty.
     */
    method LoadChildren(parentId: string) returns (items: seq<MediaItem>)
      ensures parentId == RootId ==> items == [RootItem]
      ensures parentId == TracksId ==>
        |items| == |catalogTracks| && forall i :: 0 <= i < |items| ==> items[i] == TrackItem(catalogTracks[i])
      ensures parentId != RootId && parentId != TracksId ==> items == []
    {
      items := [];
      if parentId == RootId {
        var description := Description(TracksId, "Tracks", None, None);
        items := items + [MediaItem(description, FlagBrowsable)];
        return;
      }
      if parentId == TracksId {
        for i := 0 to |catalogTracks|
          invariant |items| == i
          invariant forall j :: 0 <= j < i ==> items[j] == TrackItem(catalogTracks[j])
        {
          var track := catalogTracks[i];
          var description := Description(track.id, track.title,
                                         if IsBlank(track.artist) then None else Some(track.artist),
                                         if IsBlank(track.album) then None else Some(track.album));
          items := items + [MediaItem(description, FlagPlayable)];
        }
      }
    }

    /**
     * `clearMetadata`: without a session nothing happens; otherwise the
     * metadata goes, NONE is published at position 0 and the session is made
     * inactive. The catalog stays.
     */
    method ClearMetadata()
      requires Valid()
      modifies this
      ensures Valid()
      ensures old(session).None? ==> session == old(session) && currentPlaybackState == old(currentPlaybackState)
      ensures old(session).Some? ==>
        && currentPlaybackState == StateNone
        && session == Some(Session(None, Some(ClearedPlayback), false))
      ensures listener == old(listener) && catalogTracks == old(catalogTracks) && deliveries == old(deliveries)
    {
      if session.None? {
        return;
      }
      session := Some(session.value.(metadata := None));
      currentPlaybackState := StateNone;
      session := Some(session.value.(playback := Some(ClearedPlayback)));
      session := Some(session.value.(active := false));
    }

    /** `emitTransportAction`: the listener, if any, is called once with the event. */
    method EmitTransportAction(event: TransportEvent)
      modifies this
      ensures listener.None? ==> deliveries == old(deliveries)
      ensures listener.Some? ==> deliveries == old(deliveries) + [Delivery(listener.value, event)]
      ensures listener == old(listener) && session == old(session) && currentPlaybackState == old(currentPlaybackState)
      ensures catalogTracks == old(catalogTracks)
    {
      if listener.Some? {
        deliveries := deliveries + [Delivery(listener.value, event)];
      }
    }

    /** A transport callback of the session's `Callback`. */
    method OnTransportControl(cb: Callback)
      modifies this
      ensures listener.None? ==> deliveries == old(deliveries)
      ensures listener.Some? ==> deliveries == old(deliveries) + [Delivery(listener.value, EventFor(cb))]
      ensures listener == old(listener) && session == old(session) && currentPlaybackState == old(currentPlaybackState)
      ensures catalogTracks == old(catalogTracks)
    {
      EmitTransportAction(EventFor(cb));
    }

    /**
     * `onMediaButtonEvent`: a play/pause key-down emits "togglePlayPause" and
     * is handled; any other event goes to the platform's default handling,
     * given here as the callback it dispatches (if any) and its answer.
     */
    method OnMediaButtonEvent(keyEvent: Option<KeyEvent>, defaultDispatch: Option<Callback>, defaultHandled: bool)
      returns (handled: bool)
      modifies this
      ensures IsPlayPauseDown(keyEvent) ==> handled
      ensures !IsPlayPauseDown(keyEvent) ==> handled == defaultHandled
      ensures IsPlayPauseDown(keyEvent) && listener.Some? ==>
        deliveries == old(deliveries) + [Delivery(listener.value, TogglePlayPause)]
      ensures !IsPlayPauseDown(keyEvent) && defaultDispatch.Some? && listener.Some? ==>
        deliveries == old(deliveries) + [Delivery(listener.value, EventFor(defaultDispatch.value))]
      ensures listener.None? || (!IsPlayPauseDown(keyEvent) && defaultDispatch.None?) ==> deliveries == old(deliveries)
      ensures listener == old(listener) && session == old(session) && currentPlaybackState == old(currentPlaybackState)
      ensures catalogTracks == old(catalogTracks)
    {
      if keyEvent.Some? && keyEvent.value.action == KeyActionDown && keyEvent.value.keyCode == KeycodeMediaPlayPause {
        EmitTransportAction(TogglePlayPause);
        return true;
      }
      if defaultDispatch.Some? {
        OnTransportControl(defaultDispatch.value);
      }
      handled := defaultHandled;
    }
  }

  /**
   * The transport-controls scenario of the instrumented test: the seven
   * callbacks reach the listener as these seven events, in this order.
   */
  method TransportControlsScenario() returns (events: seq<TransportEvent>)
    ensures events == [
      TransportEvent("play", None, None),
      TransportEvent("pause", None, None),
      TransportEvent("next", None, None),
      TransportEvent("previous", None, None),
      TransportEvent("stop", None, None),
      TransportEvent("seekTo", Some(2345), None),
      TransportEvent("play", None, Some("track-2"))]
  {
    var controller := new MediaSessionController();
    controller.Initialize();
    var l := Listener(1);
    controller.SetTransportActionListener(Some(l));
    var callbacks := [Play, Pause, SkipToNext, SkipToPrevious, Stop, SeekTo(2345), PlayFromMediaId("track-2")];
    for i := 0 to |callbacks|
      invariant controller.listener == Some(l)
      invariant |controller.deliveries| == i
      invariant forall j :: 0 <= j < i ==> controller.deliveries[j] == Delivery(l, EventFor(callbacks[j]))
    {
      controller.OnTransportControl(callbacks[i]);
    }
    events := [];
    for i := 0 to |controller.deliveries|
      invariant |events| == i
      invariant forall j :: 0 <= j < i ==> events[j] == controller.deliveries[j].event
    {
      events := events + [controller.deliveries[i].event];
    }
  }

  /**
   * The catalog-and-playback scenario of the instrumented test: browsing,
   * then publishing metadata and PLAYING, then clearing.
   */
  method CatalogAndPlaybackScenario() returns (rootItems: seq<MediaItem>, trackItems: seq<MediaItem>,
                                               playing: Session, cleared: Session)
    ensures rootItems == [RootItem] && rootItems[0].description.mediaId == TracksId
    ensures |trackItems| == 2 && trackItems[0].flags == FlagPlayable
    ensures trackItems[0].description.mediaId == "track-1" && trackItems[0].description.title == "Track One"
    ensures trackItems[1].description.mediaId == "track-2"
    ensures trackItems[1].description.subtitle.None? && trackItems[1].description.description.None?
    ensures playing.metadata.Some? && playing.metadata.value.title == "Now Playing"
    ensures playing.playback.Some? && playing.playback.value.state == StatePlaying
    ensures playing.playback.value.positionMs >= 4567 && playing.active
    ensures cleared.metadata.None? && cleared.playback == Some(ClearedPlayback) && !cleared.active
  {
    var controller := new MediaSessionController();
    controller.Initialize();
    var tracks := [
      MediaCatalogTrack("track-1", "Track One", "Artist One", "Album One", 12345),
      MediaCatalogTrack("track-2", "Track Two", "", "", 9876)];
    controller.UpdateCatalogTracks(tracks);
    rootItems := controller.LoadChildren(RootId);
    trackItems := controller.LoadChildren(TracksId);
    controller.UpdateMetadata("Now Playing", "Test Artist", "Test Album", 7777);
    controller.UpdatePlaybackState(true, 4567);
    playing := controller.session.value;
    controller.ClearMetadata();
    cleared := controller.session.value;
  }
}
