/**
 * The Capacitor plugin in front of the media-session controller
 * (packages/client/android/app/src/main/java/com/tearleads/rapid/MediaSessionBridgePlugin.java):
 * it reads the JavaScript call's arguments with defaults, forwards them to the
 * controller, filters untrusted catalog entries, and turns transport actions
 * into "transportControl" notifications.
 *
 * A call's arguments arrive as the values the argument accessors extract:
 * `None` where the accessor falls back to its default.
 */
module MediaBridge {
  import opened Wrappers
  import opened MediaSession

  /**
   * One element of the `tracks` array: a JSON object, with each field as
   * `optString`/`optLong` read it (`None` when absent), or anything else.
   */
  datatype TrackEntry =
    | TrackObject(id: Option<string>, title: Option<string>, artist: Option<string>,
                  album: Option<string>, durationMs: Option<Long>)
    | NotAnObject

  /** An entry is kept when it is an object whose id and title are not blank. */
  predicate Keeps(e: TrackEntry) {
    e.TrackObject? && !IsBlank(e.id.GetOr("")) && !IsBlank(e.title.GetOr(""))
  }

  /** The catalog track an object entry stands for: missing strings are "", a missing duration 0. */
  function TrackOf(e: TrackEntry): (t: MediaCatalogTrack)
    requires e.TrackObject?
    ensures e.id.Some? ==> t.id == e.id.value
    ensures e.title.Some? ==> t.title == e.title.value
    ensures e.artist.Some? ==> t.artist == e.artist.value
    ensures e.artist.None? ==> t.artist == ""
    ensures e.album.Some? ==> t.album == e.album.value
    ensures e.album.None? ==> t.album == ""
    ensures e.durationMs.Some? ==> t.durationMs == e.durationMs.value
    ensures e.durationMs.None? ==> t.durationMs == 0
  {
    MediaCatalogTrack(e.id.GetOr(""), e.title.GetOr(""), e.artist.GetOr(""), e.album.GetOr(""), e.durationMs.GetOr(0))
  }

  /** The catalog `updateCatalog` builds from the entries, in entry order. */
  function KeptTracks(entries: seq<TrackEntry>): seq<MediaCatalogTrack> {
    if entries == [] then []
    else
      var last := entries[|entries| - 1];
      KeptTracks(entries[..|entries| - 1]) + (if Keeps(last) then [TrackOf(last)] else [])
  }

  /** Filtering distributes over concatenation, so kept entries keep their relative order. */
  lemma {:induction false} KeptTracksAppend(a: seq<TrackEntry>, b: seq<TrackEntry>)
    ensures KeptTracks(a + b) == KeptTracks(a) + KeptTracks(b)
  {
    if b == [] {
      assert a + b == a;
    } else {
      var front := b[..|b| - 1];
      assert (a + b)[..|a + b| - 1] == a + front;
      assert (a + b)[|a + b| - 1] == b[|b| - 1];
      KeptTracksAppend(a, front);
    }
  }

  /** A track is in the catalog exactly when some kept entry stands for it. */
  lemma {:induction false} KeptTracksMembers(entries: seq<TrackEntry>, t: MediaCatalogTrack)
    ensures t in KeptTracks(entries) <==>
      exists i :: 0 <= i < |entries| && Keeps(entries[i]) && TrackOf(entries[i]) == t
  {
    if entries != [] {
      var front := entries[..|entries| - 1];
      KeptTracksMembers(front, t);
      assert forall i :: 0 <= i < |front| ==> front[i] == entries[i];
      if t in KeptTracks(front) {
        var i :| 0 <= i < |front| && Keeps(front[i]) && TrackOf(front[i]) == t;
        assert entries[i] == front[i];
      }
    }
  }

  /** Every catalog track has a non-blank id and title, and there are no more tracks than entries. */
  lemma {:induction false} KeptTracksWellFormed(entries: seq<TrackEntry>)
    ensures |KeptTracks(entries)| <= |entries|
    ensures forall t :: t in KeptTracks(entries) ==> !IsBlank(t.id) && !IsBlank(t.title)
  {
    if entries != [] {
      KeptTracksWellFormed(entries[..|entries| - 1]);
    }
  }

  /** A value in a notification's payload. */
  datatype PayloadValue = Text(text: string) | Number(number: Long)

  type Payload = map<string, PayloadValue>

  /** What `notifyListeners` was given: the event name, the payload, and whether it is retained. */
  datatype Notification = Notification(eventName: string, data: Payload, retainUntilConsumed: bool)

  const TransportControlEvent := "transportControl"

  /** The payload of a transport action: always "action", and each optional key exactly when given. */
  ghost predicate PayloadFor(p: Payload, action: string, positionMs: Option<Long>, mediaId: Option<string>) {
    && (forall k :: k in p ==> k == "action" || k == "positionMs" || k == "mediaId")
    && "action" in p && p["action"] == Text(action)
    && ("positionMs" in p <==> positionMs.Some?)
    && (positionMs.Some? ==> p["positionMs"] == Number(positionMs.value))
    && ("mediaId" in p <==> mediaId.Some?)
    && (mediaId.Some? ==> p["mediaId"] == Text(mediaId.value))
  }

  /** The description pins the payload down: two payloads for the same arguments are equal. */
  lemma PayloadDetermined(p: Payload, q: Payload, action: string, positionMs: Option<Long>, mediaId: Option<string>)
    requires PayloadFor(p, action, positionMs, mediaId) && PayloadFor(q, action, positionMs, mediaId)
    ensures p == q
  {
    assert p.Keys == q.Keys;
  }

  /** Building the payload with successive `put`s. */
  method TransportPayload(action: string, positionMs: Option<Long>, mediaId: Option<string>) returns (payload: Payload)
    ensures PayloadFor(payload, action, positionMs, mediaId)
  {
    payload := map[];
    payload := payload["action" := Text(action)];
    if positionMs.Some? {
      payload := payload["positionMs" := Number(positionMs.value)];
    }
    if mediaId.Some? {
      payload := payload["mediaId" := Text(mediaId.value)];
    }
  }

  class MediaSessionBridgePlugin {
    /** The listener this plugin registers with the controller. */
    const listenerToken: Listener
    var controller: MediaSessionController?
    /** Every notification sent to JavaScript, oldest first. */
    var notifications: seq<Notification>

    ghost predicate Valid()
      reads this, controller
    {
      controller != null ==> controller.Valid()
    }

    constructor (listenerToken: Listener)
      ensures this.listenerToken == listenerToken && controller == null && notifications == [] && Valid()
    {
      this.listenerToken := listenerToken;
      controller := null;
      notifications := [];
    }

    /**
     * `load`: take the controller singleton, initialize it and register this
     * plugin's listener.
     */
    method Load(instance: MediaSessionController)
      requires instance.Valid()
      modifies this, instance
      ensures Valid() && controller == instance
      ensures instance.listener == Some(listenerToken)
      ensures old(instance.session).Some? ==> instance.session == old(instance.session)
      ensures old(instance.session).None? ==> instance.session == Some(Session(None, Some(Published(false, 0)), true))
      ensures instance.catalogTracks == old(instance.catalogTracks) && instance.deliveries == old(instance.deliveries)
      ensures notifications == old(notifications)
    {
      controller := instance;
      instance.Initialize();
      instance.SetTransportActionListener(Some(listenerToken));
    }

    /** `updatePlaybackState`: `isPlaying` defaults to false and `positionMs` to 0. */
    method UpdatePlaybackState(isPlaying: Option<bool>, positionMs: Option<Long>)
      requires Valid()
      modifies controller
      ensures Valid()
      ensures controller != null ==>
        && (old(controller.session).None? ==> controller.session == old(controller.session))
        && (old(controller.session).Some? ==>
              && controller.session == Some(old(controller.session).value.(
                   playback := Some(Published(isPlaying.GetOr(false), positionMs.GetOr(0))), active := true))
              && controller.currentPlaybackState == (if isPlaying.GetOr(false) then StatePlaying else StatePaused))
        && controller.listener == old(controller.listener)
        && controller.catalogTracks == old(controller.catalogTracks)
        && controller.deliveries == old(controller.deliveries)
    {
      var playing := isPlaying.GetOr(false);
      var position := positionMs.GetOr(0);
      if controller != null {
        controller.UpdatePlaybackState(playing, position);
      }
    }

    /** `updateMetadata`: the strings default to "" and `durationMs` to 0. */
    method UpdateMetadata(title: Option<string>, artist: Option<string>, album: Option<string>, durationMs: Option<Long>)
      requires Valid()
      modifies controller
      ensures Valid()
      ensures controller != null ==>
        && (old(controller.session).None? ==> controller.session == old(controller.session))
        && (old(controller.session).Some? ==>
              controller.session == Some(old(controller.session).value.(
                metadata := Some(BuildMetadata(title.GetOr(""), artist.GetOr(""), album.GetOr(""), durationMs.GetOr(0))),
                active := true)))
        && controller.currentPlaybackState == old(controller.currentPlaybackState)
        && controller.listener == old(controller.listener)
        && controller.catalogTracks == old(controller.catalogTracks)
        && controller.deliveries == old(controller.deliveries)
    {
      var titleText := title.GetOr("");
      var artistText := artist.GetOr("");
      var albumText := album.GetOr("");
      var duration := durationMs.GetOr(0);
      if controller != null {
        controller.UpdateMetadata(titleText, artistText, albumText, duration);
      }
    }

    /** `clearMetadata`: forwarded when there is a controller. */
    method ClearMetadata()
      requires Valid()
      modifies controller
      ensures Valid()
      ensures controller != null ==>
        && (old(controller.session).None? ==> controller.session == old(controller.session))
        && (old(controller.session).Some? ==>
              controller.session == Some(Session(None, Some(ClearedPlayback), false))
              && controller.currentPlaybackState == StateNone)
        && controller.listener == old(controller.listener)
        && controller.catalogTracks == old(controller.catalogTracks)
        && controller.deliveries == old(controller.deliveries)
    {
      if controller != null {
        controller.ClearMetadata();
      }
    }

    /**
     * `updateCatalog`: without a controller nothing happens; otherwise the
     * catalog becomes the kept entries of `tracks`, or empty when it is missing.
     */
    method UpdateCatalog(tracks: Option<seq<TrackEntry>>)
      requires Valid()
      modifies controller
      ensures Valid()
      ensures controller != null ==>
        && controller.catalogTracks == KeptTracks(tracks.GetOr([]))
        && controller.session == old(controller.session)
        && controller.currentPlaybackState == old(controller.currentPlaybackState)
        && controller.listener == old(controller.listener)
        && controller.deliveries == old(controller.deliveries)
    {
      if controller == null {
        return;
      }
      var kept: seq<MediaCatalogTrack> := [];
      if tracks.Some? {
        var entries := tracks.value;
        for i := 0 to |entries|
          invariant kept == KeptTracks(entries[..i])
        {
          assert entries[..i + 1][..i] == entries[..i];
          var entry := entries[i];
          if !entry.TrackObject? {
            continue;
          }
          var id := entry.id.GetOr("");
          var title := entry.title.GetOr("");
          if IsBlank(id) || IsBlank(title) {
            continue;
          }
          var artist := entry.artist.GetOr("");
          var album := entry.album.GetOr("");
          var duration := entry.durationMs.GetOr(0);
          kept := kept + [MediaCatalogTrack(id, title, artist, album, duration)];
        }
        assert entries[..|entries|] == entries;
      }
      controller.UpdateCatalogTracks(kept);
    }

    /** `emitTransportAction`: one retained "transportControl" notification. */
    method EmitTransportAction(action: string, positionMs: Option<Long>, mediaId: Option<string>)
      modifies this
      ensures |notifications| == |old(notifications)| + 1 && notifications[..|old(notifications)|] == old(notifications)
      ensures var n := notifications[|notifications| - 1];
        n.eventName == TransportControlEvent && n.retainUntilConsumed && PayloadFor(n.data, action, positionMs, mediaId)
      ensures controller == old(controller)
    {
      var payload := TransportPayload(action, positionMs, mediaId);
      notifications := notifications + [Notification(TransportControlEvent, payload, true)];
    }

    /**
     * The session invoking a transport callback: the controller calls its
     * listener, which reaches this plugin only while the plugin's own
     * listener is the registered one.
     */
    method RelayTransportControl(cb: Callback)
      requires controller != null && Valid()
      modifies this, controller
      ensures controller == old(controller) && Valid()
      ensures controller.listener == old(controller.listener)
      ensures controller.listener.None? ==> controller.deliveries == old(controller.deliveries)
      ensures controller.listener.Some? ==>
        controller.deliveries == old(controller.deliveries) + [Delivery(controller.listener.value, EventFor(cb))]
      ensures controller.listener == Some(listenerToken) ==>
        var e := EventFor(cb);
        && |notifications| == |old(notifications)| + 1
        && notifications[..|old(notifications)|] == old(notifications)
        && PayloadFor(notifications[|notifications| - 1].data, e.action, e.positionMs, e.mediaId)
      ensures controller.listener != Some(listenerToken) ==> notifications == old(notifications)
      ensures controller.session == old(controller.session) && controller.catalogTracks == old(controller.catalogTracks)
    {
      var c := controller;
      c.OnTransportControl(cb);
      if c.listener == Some(listenerToken) {
        var e := EventFor(cb);
        EmitTransportAction(e.action, e.positionMs, e.mediaId);
      }
    }

    /**
     * A media-button event reaching the controller: the event it delivers, if
     * any, is relayed to JavaScript when the plugin's listener is registered.
     */
    method RelayMediaButton(keyEvent: Option<KeyEvent>, defaultDispatch: Option<Callback>, defaultHandled: bool)
      returns (handled: bool)
      requires controller != null && Valid()
      modifies this, controller
      ensures controller == old(controller) && Valid()
      ensures handled == (IsPlayPauseDown(keyEvent) || defaultHandled)
      ensures controller.listener == old(controller.listener)
      ensures IsPlayPauseDown(keyEvent) && controller.listener.Some? ==>
        controller.deliveries == old(controller.deliveries) + [Delivery(controller.listener.value, TogglePlayPause)]
      ensures !IsPlayPauseDown(keyEvent) && defaultDispatch.Some? && controller.listener.Some? ==>
        controller.deliveries
        == old(controller.deliveries) + [Delivery(controller.listener.value, EventFor(defaultDispatch.value))]
      ensures controller.listener.None? || (!IsPlayPauseDown(keyEvent) && defaultDispatch.None?) ==>
        controller.deliveries == old(controller.deliveries)
      ensures controller.listener == Some(listenerToken) && IsPlayPauseDown(keyEvent) ==>
        && |notifications| == |old(notifications)| + 1
        && notifications[..|old(notifications)|] == old(notifications)
        && PayloadFor(notifications[|notifications| - 1].data, TogglePlayPause.action, None, None)
      ensures controller.listener == Some(listenerToken) && !IsPlayPauseDown(keyEvent) && defaultDispatch.Some? ==>
        var e := EventFor(defaultDispatch.value);
        && |notifications| == |old(notifications)| + 1
        && notifications[..|old(notifications)|] == old(notifications)
        && PayloadFor(notifications[|notifications| - 1].data, e.action, e.positionMs, e.mediaId)
      ensures controller.listener != Some(listenerToken) || (!IsPlayPauseDown(keyEvent) && defaultDispatch.None?) ==>
        notifications == old(notifications)
      ensures controller.session == old(controller.session) && controller.catalogTracks == old(controller.catalogTracks)
    {
      var c := controller;
      handled := c.OnMediaButtonEvent(keyEvent, defaultDispatch, defaultHandled);
      if c.listener == Some(listenerToken) {
        if IsPlayPauseDown(keyEvent) {
          EmitTransportAction(TogglePlayPause.action, None, None);
        } else if defaultDispatch.Some? {
          var e := EventFor(defaultDispatch.value);
          EmitTransportAction(e.action, e.positionMs, e.mediaId);
        }
      }
    }

    /** `handleOnDestroy`: the controller's listener is cleared. */
    method HandleOnDestroy()
      requires Valid()
      modifies controller
      ensures Valid()
      ensures controller != null ==>
        && controller.listener.None?
        && controller.session == old(controller.session)
        && controller.currentPlaybackState == old(controller.currentPlaybackState)
        && controller.catalogTracks == old(controller.catalogTracks)
        && controller.deliveries == old(controller.deliveries)
    {
      if controller != null {
        controller.SetTransportActionListener(None);
      }
    }
  }

  /**
   * A loaded plugin relays transport actions until it is destroyed; after
   * that the controller drops them and no notification is sent.
   */
  method DestroyedPluginHearsNothing(before: Callback, after: Callback)
    returns (heardBefore: nat, heardAfter: nat, delivered: seq<Delivery>)
    ensures heardBefore == 1 && heardAfter == 0
    ensures delivered == [Delivery(Listener(7), EventFor(before))]
  {
    var controller := new MediaSessionController();
    var plugin := new MediaSessionBridgePlugin(Listener(7));
    plugin.Load(controller);
    plugin.RelayTransportControl(before);
    heardBefore := |plugin.notifications|;
    plugin.HandleOnDestroy();
    plugin.RelayTransportControl(after);
    heardAfter := |plugin.notifications| - heardBefore;
    delivered := controller.deliveries;
  }

  /**
   * A play/pause key-down on a loaded plugin is handled by the controller and
   * reaches JavaScript as a "togglePlayPause" transport control.
   */
  method MediaButtonReachesPlugin(defaultDispatch: Option<Callback>, defaultHandled: bool)
    returns (handled: bool, notes: seq<Notification>, delivered: seq<Delivery>)
    ensures handled
    ensures |notes| == 1 && PayloadFor(notes[0].data, "togglePlayPause", None, None)
    ensures delivered == [Delivery(Listener(7), TogglePlayPause)]
  {
    var controller := new MediaSessionController();
    var plugin := new MediaSessionBridgePlugin(Listener(7));
    plugin.Load(controller);
    var key := Some(KeyEvent(KeyActionDown, KeycodeMediaPlayPause));
    handled := plugin.RelayMediaButton(key, defaultDispatch, defaultHandled);
    notes := plugin.notifications;
    delivered := controller.deliveries;
  }
}
