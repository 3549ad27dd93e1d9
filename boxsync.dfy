/** `ZiggoNextBox`: the local copy of one set-top box's state, driven by broker messages. */
module BoxSync {
  import opened Common
  import opened Ids
  import opened Lookups
  import opened Resolver
  import opened Lifecycle

  /** A message on the box's own status topic: its `source` and its `status` object. */
  datatype StatusEnvelope = StatusEnvelope(source: string, status: UiStatus)

  /** The length of every correlation id the box generates (`_makeId(8)`). */
  const IdLength: nat := 8

  /** The key press `send_key_to_box` publishes; the key is embedded verbatim. */
  function KeyEventMessage(key: string): Message
  {
    KeyEvent("CPE.KeyEvent", key, "keyDownUp")
  }

  /** The channel switch `set_channel` publishes; the service id is embedded verbatim. */
  function PushToTvMessage(id: string, clientId: string, serviceId: string): Message
  {
    PushToTv(id, "CPE.pushToTV", clientId, "Home Assistant", "linear", serviceId, 0, 1)
  }

  /** A remote-control action: the command, then a state request, both on the box's topic. */
  function RemoteControlEffects(ident: Identity, command: Message, requestId: string): (r: seq<Effect>)
    requires command.KeyEvent? || command.PushToTv?
    ensures |r| == 2
    ensures forall i :: 0 <= i < |r| ==> r[i].Publish? && r[i].topic == ident.BoxTopic()
    ensures r[0].msg == command
    ensures r[1] == StateRequestEffect(ident, requestId)
    ensures SubscribedTopics(r) == [] && RequestIds(r) == [requestId]
  {
    var r := [Publish(ident.BoxTopic(), command), StateRequestEffect(ident, requestId)];
    var tail := r[1..];
    assert tail == [StateRequestEffect(ident, requestId)] && tail[1..] == [];
    assert tail[0].Publish? && tail[0].msg.StateRequest? && tail[0].msg.id == requestId;
    assert SubscribedTopics(tail[1..]) == [] && RequestIds(tail[1..]) == [];
    assert SubscribedTopics(tail) == [] && RequestIds(tail) == [requestId] + [];
    r
  }

  class ZiggoNextBox {
    const ident: Identity
    const name: string
    var state: BoxState
    var info: PlayingInfo
    var channels: map<string, ChannelDescriptor>
    /** Whether a change callback is registered. */
    var hasCallback: bool
    /** Every subscribe and publish issued through the broker client, in order. */
    ghost var log: seq<Effect>
    /** How many times the change callback has fired. */
    ghost var notified: nat

    ghost predicate Valid()
      reads this, info
    {
      info.Value().WellFormed()
    }

    constructor (boxId: string, name: string, householdId: string, clientId: string)
      ensures Valid()
      ensures ident == Identity(householdId, boxId, clientId) && this.name == name
      ensures state == Unknown && fresh(info) && info.Value() == Empty
      ensures channels == map[] && !hasCallback && log == [] && notified == 0
    {
      ident := Identity(householdId, boxId, clientId);
      this.name := name;
      state := Unknown;
      info := new PlayingInfo();
      channels := map[];
      hasCallback := false;
      log := [];
      notified := 0;
    }

    /** Subscribes to the household topic and all boxes' status, then announces this client. */
    method Register()
      modifies this`log
      ensures log == old(log) + [Subscribe(ident.household), Subscribe(ident.HouseholdStatusTopic()),
                                 Publish(ident.ClientStatusTopic(), Presence(ident.clientId, "ONLINE_RUNNING", "HGO"))]
    {
      DoSubscribe(ident.household);
      DoSubscribe(ident.HouseholdStatusTopic());
      log := log + [Publish(ident.ClientStatusTopic(), Presence(ident.clientId, "ONLINE_RUNNING", "HGO"))];
    }

    /** Registers (or, with `present` false, removes) the single change callback. */
    method SetCallback(present: bool)
      modifies this`hasCallback
      ensures hasCallback == present
    {
      hasCallback := present;
    }

    method DoSubscribe(topic: string)
      modifies this`log
      ensures log == old(log) + [Subscribe(topic)]
    {
      log := log + [Subscribe(topic)];
    }

    /** Handles a message on the household status topic. */
    method UpdateSettopboxState(envelope: StateEnvelope, firstPicks: seq<nat>, secondPicks: seq<nat>)
      requires Valid()
      requires |firstPicks| == IdLength && ValidPicks(firstPicks)
      requires |secondPicks| == IdLength && ValidPicks(secondPicks)
      modifies this
      ensures Valid()
      ensures envelope.source != ident.boxId ==> unchanged(this)
      ensures envelope.source == ident.boxId ==>
        && state == envelope.state
        && log == old(log) + LifecycleEffects(ident, old(state), envelope.state,
                                              MakeId(IdLength, firstPicks), MakeId(IdLength, secondPicks))
        && (if envelope.state == Standby then fresh(info) && info.Value() == Empty else info == old(info))
        && notified == old(notified) + (if hasCallback then 1 else 0)
      ensures channels == old(channels) && hasCallback == old(hasCallback)
    {
      if envelope.source != ident.boxId {
        return;
      }
      var reported := envelope.state;
      ghost var before := log;
      ghost var firstId, secondId := MakeId(IdLength, firstPicks), MakeId(IdLength, secondPicks);
      ghost var boot := if state == Unknown then BootstrapEffects(ident, firstId) else [];
      ghost var refresh := if reported == Standby then [] else [StateRequestEffect(ident, secondId)];
      if state == Unknown {
        Bootstrap(firstPicks);
      }
      assert log == before + boot;
      if reported == Standby {
        info := new PlayingInfo();
      } else {
        RequestSettopBoxState(secondPicks);
      }
      assert log == before + boot + refresh;
      assert boot + refresh == LifecycleEffects(ident, state, reported, firstId, secondId);
      state := reported;
      if hasCallback {
        notified := notified + 1;
      }
    }

    /** The first-contact steps: a state request, then the three per-box subscriptions. */
    method Bootstrap(picks: seq<nat>)
      requires |picks| == IdLength && ValidPicks(picks)
      modifies this`log
      ensures log == old(log) + BootstrapEffects(ident, MakeId(IdLength, picks))
    {
      RequestSettopBoxState(picks);
      DoSubscribe(ident.ClientTopic());
      DoSubscribe(ident.BoxTopic());
      DoSubscribe(ident.BoxStatusTopic());
    }

    /** Asks the box for its detailed status, with the correlation id drawn by `picks`. */
    method RequestSettopBoxState(picks: seq<nat>)
      requires |picks| == IdLength && ValidPicks(picks)
      modifies this`log
      ensures log == old(log) + [StateRequestEffect(ident, MakeId(IdLength, picks))]
      ensures var e := log[|log| - 1];
        && e.topic == ident.household + "/" + ident.boxId
        && e.msg.StateRequest? && e.msg.msgType == "CPE.getUiStatus" && e.msg.source == ident.clientId
        && |e.msg.id| == 8
    {
      var id := MakeId(IdLength, picks);
      log := log + [Publish(ident.BoxTopic(), StateRequest(id, "CPE.getUiStatus", ident.clientId))];
    }

    /** Handles a message on the box's own status topic; the result is the exception raised, if any,
        which leaves the fields written before it in place. */
    method UpdateSettopBox(envelope: StatusEnvelope, fetch: Fetch) returns (failure: Option<Failure>)
      requires Valid()
      modifies info, this`notified
      ensures Valid()
      ensures envelope.source != ident.boxId ==> failure.None? && unchanged(info) && notified == old(notified)
      ensures envelope.source == ident.boxId ==>
        var o := Render(old(info.Value()), envelope.status, channels, fetch);
        && info.Value() == o.info && failure == o.failure
        && notified == old(notified) + (if hasCallback && Notifies(envelope.status, o) then 1 else 0)
    {
      if envelope.source != ident.boxId {
        return None;
      }
      var status := envelope.status;
      if status.NoUiStatus? {
        return None;
      }
      if status.MainUI? {
        var player := status.player;
        if player.sourceType == Replay {
          failure := PlayRecording(Replay, "eventId", player.source.eventId, "ReplayTV: ", player.speed, fetch);
        } else if player.sourceType == Dvr {
          failure := PlayRecording(Dvr, "recordingId", player.source.recordingId, "Recording: ", player.speed, fetch);
        } else if player.sourceType == Buffer {
          failure := PlayBuffer(player.source, player.speed, fetch);
        } else if player.sourceType == Channel {
          failure := PlayLive(player.source, fetch);
        } else {
          failure := PlayFallback(player.source, player.speed);
        }
        if failure.Some? {
          return;
        }
      } else if status.Apps? {
        PlayApp(status.apps);
      }
      if hasCallback {
        notified := notified + 1;
      }
      failure := None;
    }

    method PlayRecording(kind: PlayState, key: string, id: Option<string>, prefix: string, speed: int, fetch: Fetch)
      returns (failure: Option<Failure>)
      modifies info
      ensures var o := ShowRecording(old(info.Value()), kind, key, id, prefix, speed, fetch);
        info.Value() == o.info && failure == o.failure
    {
      info.sourceType := Some(kind);
      if id.None? { return Some(KeyError(key)); }
      info.channel := None;
      info.channelTitle := None;
      var title := RecordingTitle(fetch, id.value);
      if title.Failure? { return Some(title.error); }
      if title.value.None? { return Some(TypeError(prefix)); }
      info.title := Some(prefix + title.value.value);
      var image := RecordingImage(fetch, id.value);
      if image.Failure? { return Some(image.error); }
      info.image := image.value;
      info.paused := speed == 0;
      failure := None;
    }

    method PlayBuffer(source: StateSource, speed: int, fetch: Fetch) returns (failure: Option<Failure>)
      modifies info
      ensures var o := ShowBuffer(old(info.Value()), source, speed, channels, fetch);
        info.Value() == o.info && failure == o.failure
    {
      info.sourceType := Some(Buffer);
      if source.channelId.None? { return Some(KeyError("channelId")); }
      var channelId := source.channelId.value;
      if channelId !in channels { return Some(KeyError(channelId)); }
      var channel := channels[channelId];
      if source.eventId.None? { return Some(KeyError("eventId")); }
      var eventId := source.eventId.value;
      info.channel := Some(channelId);
      info.channelTitle := Some(channel.title);
      var title := RecordingTitle(fetch, eventId);
      if title.Failure? { return Some(title.error); }
      if title.value.None? { return Some(TypeError("Delayed: ")); }
      info.title := Some("Delayed: " + title.value.value);
      info.image := Some(channel.streamImage);
      info.paused := speed == 0;
      failure := None;
    }

    method PlayLive(source: StateSource, fetch: Fetch) returns (failure: Option<Failure>)
      modifies info
      ensures var o := ShowLive(old(info.Value()), source, channels, fetch);
        info.Value() == o.info && failure == o.failure
    {
      info.sourceType := Some(Channel);
      if source.channelId.None? { return Some(KeyError("channelId")); }
      var channelId := source.channelId.value;
      if source.eventId.None? { return Some(KeyError("eventId")); }
      var eventId := source.eventId.value;
      if channelId !in channels { return Some(KeyError(channelId)); }
      var channel := channels[channelId];
      info.channel := Some(channelId);
      info.channelTitle := Some(channel.title);
      info.title := ChannelTitle(fetch, channelId, eventId);
      info.image := Some(channel.streamImage);
      info.paused := false;
      failure := None;
    }

    method PlayFallback(source: StateSource, speed: int) returns (failure: Option<Failure>)
      modifies info
      ensures var o := ShowFallback(old(info.Value()), source, speed);
        info.Value() == o.info && failure == o.failure
    {
      info.sourceType := Some(Channel);
      if source.eventId.None? { return Some(KeyError("eventId")); }
      info.channel := None;
      info.title := Some("Playing something...");
      info.image := None;
      info.paused := speed == 0;
      failure := None;
    }

    method PlayApp(apps: AppsState)
      modifies info
      ensures info.Value() == ShowApp(old(info.Value()), apps).info
    {
      var logoPath := NormalizeLogoPath(apps.logoPath);
      info.sourceType := Some(App);
      info.channel := None;
      info.channelTitle := Some(apps.appName);
      info.title := Some(apps.appName);
      info.image := Some(logoPath);
      info.paused := false;
    }

    /** Sends an emulated remote key press, then asks for the new state. */
    method SendKeyToBox(key: string, picks: seq<nat>)
      requires |picks| == IdLength && ValidPicks(picks)
      modifies this`log
      ensures log == old(log) + RemoteControlEffects(ident, KeyEventMessage(key), MakeId(IdLength, picks))
    {
      log := log + [Publish(ident.BoxTopic(), KeyEventMessage(key))];
      RequestSettopBoxState(picks);
    }

    /** Switches the box to channel `serviceId`, then asks for the new state. */
    method SetChannel(serviceId: string, pushPicks: seq<nat>, requestPicks: seq<nat>)
      requires |pushPicks| == IdLength && ValidPicks(pushPicks)
      requires |requestPicks| == IdLength && ValidPicks(requestPicks)
      modifies this`log
      ensures log == old(log) + RemoteControlEffects(ident, PushToTvMessage(MakeId(IdLength, pushPicks), ident.clientId, serviceId),
                                                     MakeId(IdLength, requestPicks))
    {
      var id := MakeId(IdLength, pushPicks);
      log := log + [Publish(ident.BoxTopic(), PushToTvMessage(id, ident.clientId, serviceId))];
      RequestSettopBoxState(requestPicks);
    }

    /** Forgets what is playing; nothing is published. */
    method TurnOff()
      modifies this`info
      ensures Valid()
      ensures fresh(info) && info.Value() == Empty
    {
      info := new PlayingInfo();
    }
  }
}
