/** The detailed-status payload of a box and what `_update_settop_box` makes of it. */
module Resolver {
  import opened Common
  import opened Lookups

  /** The `sourceType` constants BOX_PLAY_STATE_*; `Other` is any string that matches none of them. */
  datatype PlayState = Replay | Dvr | Buffer | Channel | App | Other(raw: string)

  /** An entry of the box's `channels` table. */
  datatype ChannelDescriptor = ChannelDescriptor(title: string, streamImage: string)

  /** `playerState.source`: each key is absent (None) or present. */
  datatype StateSource = StateSource(eventId: Option<string>, recordingId: Option<string>, channelId: Option<string>)

  datatype PlayerState = PlayerState(sourceType: PlayState, source: StateSource, speed: int)

  datatype AppsState = AppsState(appName: string, logoPath: string)

  /** The `status` object, by its `uiStatus`: absent, "mainUI", "apps" or any other value. */
  datatype UiStatus =
    | NoUiStatus
    | MainUI(player: PlayerState)
    | Apps(apps: AppsState)
    | OtherUi(raw: string)

  /** The fields of a playing-info record, as a value. */
  datatype Snapshot = Snapshot(
    sourceType: Option<PlayState>,
    channel: Option<string>,
    channelTitle: Option<string>,
    title: Option<string>,
    image: Option<string>,
    paused: bool)
  {
    /** Only the BOX_PLAY_STATE_* constants are ever stored as the source type. */
    predicate WellFormed()
    {
      sourceType.Some? ==> !sourceType.value.Other?
    }
  }

  /** A freshly constructed playing-info record. */
  const Empty := Snapshot(None, None, None, None, None, false)

  /** The playing-info record the box owns; `_update_settop_box` writes its fields one at a time. */
  class PlayingInfo {
    var sourceType: Option<PlayState>
    var channel: Option<string>
    var channelTitle: Option<string>
    var title: Option<string>
    var image: Option<string>
    var paused: bool

    constructor ()
      ensures Value() == Empty
    {
      sourceType, channel, channelTitle, title, image, paused := None, None, None, None, None, false;
    }

    function Value(): Snapshot
      reads this
    {
      Snapshot(sourceType, channel, channelTitle, title, image, paused)
    }
  }

  /** `logoPath` as shown: "https:" is put in front unless it already starts with "http:". */
  function NormalizeLogoPath(logoPath: string): (r: string)
    ensures r == logoPath <==> "http:" <= logoPath
    ensures r != logoPath ==> r == "https:" + logoPath
    ensures "http:" <= r || "https:" <= r
  {
    if "http:" <= logoPath then logoPath else "https:" + logoPath
  }

  /** The check is on the literal prefix "http:", so a logo that already has the https scheme gets
      a second one. */
  lemma NormalizeLogoPathOnHttps(rest: string)
    ensures NormalizeLogoPath("https:" + rest) == "https:https:" + rest
  {
    assert ("https:" + rest)[4] == 's';
  }

  /** What a status update leaves behind: the record as written so far, and the exception that
      stopped it, if any. */
  datatype Outcome = Outcome(info: Snapshot, failure: Option<Failure>)

  /** A recording (replay or DVR) with id `id` under payload key `key`: the title is `prefix` + the
      recording title, which must exist. */
  function ShowRecording(cur: Snapshot, kind: PlayState, key: string, id: Option<string>, prefix: string,
                         speed: int, fetch: Fetch): (o: Outcome)
    ensures o.info.sourceType == Some(kind)
    ensures o.failure.Some? ==> o.info.image == cur.image && o.info.paused == cur.paused
    // it succeeds exactly when the id is given and the service has the recording with an image
    ensures o.failure.None? <==>
      id.Some? && fetch(id.value).statusCode == 200 && fetch(id.value).program.Some?
      && fetch(id.value).program.value.imageUrls != []
    // each failure, with the record as the source leaves it at that point
    ensures id.None? ==> o == Outcome(cur.(sourceType := Some(kind)), Some(KeyError(key)))
    ensures id.Some? && fetch(id.value).statusCode != 200 ==>
      o == Outcome(cur.(sourceType := Some(kind), channel := None, channelTitle := None), Some(TypeError(prefix)))
    ensures id.Some? && fetch(id.value).statusCode == 200 && fetch(id.value).program.None? ==>
      o == Outcome(cur.(sourceType := Some(kind), channel := None, channelTitle := None), Some(KeyError("program")))
    ensures id.Some? && fetch(id.value).statusCode == 200 && fetch(id.value).program.Some?
            && fetch(id.value).program.value.imageUrls == [] ==>
      o == Outcome(cur.(sourceType := Some(kind), channel := None, channelTitle := None,
                        title := Some(prefix + fetch(id.value).program.value.title)), Some(IndexError))
    // success: no channel, the prefixed title, the first image, paused exactly at speed 0
    ensures o.failure.None? ==>
      o.info == cur.(sourceType := Some(kind), channel := None, channelTitle := None,
                     title := Some(prefix + fetch(id.value).program.value.title),
                     image := Some(fetch(id.value).program.value.imageUrls[0]),
                     paused := speed == 0)
  {
    var typed := cur.(sourceType := Some(kind));
    if id.None? then Outcome(typed, Some(KeyError(key)))
    else
      var cleared := typed.(channel := None, channelTitle := None);
      match RecordingTitle(fetch, id.value)
      case Failure(e) => Outcome(cleared, Some(e))
      case Success(None) => Outcome(cleared, Some(TypeError(prefix)))
      case Success(Some(t)) =>
        var titled := cleared.(title := Some(prefix + t));
        match RecordingImage(fetch, id.value)
        case Failure(e) => Outcome(titled, Some(e))
        case Success(img) => Outcome(titled.(image := img, paused := speed == 0), None)
  }

  /** Time-shifted viewing of a channel, which must be in the channel table. */
  function ShowBuffer(cur: Snapshot, source: StateSource, speed: int,
                      channels: map<string, ChannelDescriptor>, fetch: Fetch): (o: Outcome)
    ensures o.info.sourceType == Some(Buffer)
    ensures o.failure.Some? ==> o.info.image == cur.image && o.info.paused == cur.paused
    // it succeeds exactly when both ids are given, the channel is known and the service has the event
    ensures o.failure.None? <==>
      source.channelId.Some? && source.channelId.value in channels && source.eventId.Some?
      && fetch(source.eventId.value).statusCode == 200 && fetch(source.eventId.value).program.Some?
    // each failure, in the order the source meets them, with the record as it is left
    ensures source.channelId.None? ==> o == Outcome(cur.(sourceType := Some(Buffer)), Some(KeyError("channelId")))
    ensures source.channelId.Some? && source.channelId.value !in channels ==>
      o == Outcome(cur.(sourceType := Some(Buffer)), Some(KeyError(source.channelId.value)))
    ensures source.channelId.Some? && source.channelId.value in channels && source.eventId.None? ==>
      o == Outcome(cur.(sourceType := Some(Buffer)), Some(KeyError("eventId")))
    ensures source.channelId.Some? && source.channelId.value in channels && source.eventId.Some?
            && fetch(source.eventId.value).statusCode != 200 ==>
      o == Outcome(cur.(sourceType := Some(Buffer), channel := source.channelId,
                        channelTitle := Some(channels[source.channelId.value].title)), Some(TypeError("Delayed: ")))
    ensures source.channelId.Some? && source.channelId.value in channels && source.eventId.Some?
            && fetch(source.eventId.value).statusCode == 200 && fetch(source.eventId.value).program.None? ==>
      o == Outcome(cur.(sourceType := Some(Buffer), channel := source.channelId,
                        channelTitle := Some(channels[source.channelId.value].title)), Some(KeyError("program")))
    // success: the channel and its title and image from the table, "Delayed: " + the title
    ensures o.failure.None? ==>
      o.info == cur.(sourceType := Some(Buffer), channel := source.channelId,
                     channelTitle := Some(channels[source.channelId.value].title),
                     title := Some("Delayed: " + fetch(source.eventId.value).program.value.title),
                     image := Some(channels[source.channelId.value].streamImage),
                     paused := speed == 0)
  {
    var typed := cur.(sourceType := Some(Buffer));
    if source.channelId.None? then Outcome(typed, Some(KeyError("channelId")))
    else if source.channelId.value !in channels then Outcome(typed, Some(KeyError(source.channelId.value)))
    else if source.eventId.None? then Outcome(typed, Some(KeyError("eventId")))
    else
      var descriptor := channels[source.channelId.value];
      var tuned := typed.(channel := source.channelId, channelTitle := Some(descriptor.title));
      match RecordingTitle(fetch, source.eventId.value)
      case Failure(e) => Outcome(tuned, Some(e))
      case Success(None) => Outcome(tuned, Some(TypeError("Delayed: ")))
      case Success(Some(t)) =>
        Outcome(tuned.(title := Some("Delayed: " + t), image := Some(descriptor.streamImage), paused := speed == 0), None)
  }

  /** Live viewing of a channel, which must be in the channel table; live is never paused. */
  function ShowLive(cur: Snapshot, source: StateSource,
                    channels: map<string, ChannelDescriptor>, fetch: Fetch): (o: Outcome)
    ensures o.info.sourceType == Some(Channel)
    ensures o.failure.Some? ==> o.info == cur.(sourceType := Some(Channel))
    ensures o.failure.None? <==>
      source.channelId.Some? && source.eventId.Some? && source.channelId.value in channels
    // the missing ids are checked first, the channel id before the event id
    ensures source.channelId.None? ==> o.failure == Some(KeyError("channelId"))
    ensures source.channelId.Some? && source.eventId.None? ==> o.failure == Some(KeyError("eventId"))
    ensures source.channelId.Some? && source.eventId.Some? && source.channelId.value !in channels ==>
      o.failure == Some(KeyError(source.channelId.value))
    ensures o.failure.None? ==>
      && o.info.channel == source.channelId
      && o.info.channelTitle == Some(channels[source.channelId.value].title)
      && o.info.title == ChannelTitle(fetch, source.channelId.value, source.eventId.value)
      && o.info.image == Some(channels[source.channelId.value].streamImage)
      && !o.info.paused
  {
    var typed := cur.(sourceType := Some(Channel));
    if source.channelId.None? then Outcome(typed, Some(KeyError("channelId")))
    else if source.eventId.None? then Outcome(typed, Some(KeyError("eventId")))
    else if source.channelId.value !in channels then Outcome(typed, Some(KeyError(source.channelId.value)))
    else
      var descriptor := channels[source.channelId.value];
      Outcome(typed.(channel := source.channelId, channelTitle := Some(descriptor.title),
                     title := ChannelTitle(fetch, source.channelId.value, source.eventId.value),
                     image := Some(descriptor.streamImage), paused := false), None)
  }

  /** Any other source type: a placeholder, recorded as a channel, with no lookup at all; the
      channel title is never written, so the previous one stays. */
  function ShowFallback(cur: Snapshot, source: StateSource, speed: int): (o: Outcome)
    ensures o.info.sourceType == Some(Channel)
    ensures o.info.channelTitle == cur.channelTitle
    ensures o.failure.None? <==> source.eventId.Some?
    ensures source.eventId.None? ==> o.failure == Some(KeyError("eventId"))
    ensures o.failure.Some? ==> o.info == cur.(sourceType := Some(Channel))
    ensures o.failure.None? ==>
      o.info.channel.None? && o.info.title == Some("Playing something...") && o.info.image.None?
      && o.info.paused == (speed == 0)
  {
    var typed := cur.(sourceType := Some(Channel));
    if source.eventId.None? then Outcome(typed, Some(KeyError("eventId")))
    else Outcome(typed.(channel := None, title := Some("Playing something..."), image := None, paused := speed == 0), None)
  }

  /** An app in the foreground: its name is both titles, its logo the image; never paused. */
  function ShowApp(cur: Snapshot, apps: AppsState): (o: Outcome)
    ensures o.failure.None?
    ensures o.info.sourceType == Some(App) && o.info.channel.None?
    ensures o.info.title == Some(apps.appName) && o.info.channelTitle == Some(apps.appName)
    ensures o.info.image == Some(NormalizeLogoPath(apps.logoPath))
    ensures !o.info.paused
  {
    Outcome(cur.(sourceType := Some(App), channel := None, channelTitle := Some(apps.appName),
                 title := Some(apps.appName), image := Some(NormalizeLogoPath(apps.logoPath)), paused := false), None)
  }

  /** The record `_update_settop_box` leaves when it starts from `cur`. */
  function Render(cur: Snapshot, status: UiStatus, channels: map<string, ChannelDescriptor>, fetch: Fetch): (o: Outcome)
    // a status without `uiStatus`, or with one it does not know, changes nothing
    ensures status.NoUiStatus? || status.OtherUi? ==> o == Outcome(cur, None)
    // only the known constants are ever stored as the source type
    ensures cur.WellFormed() ==> o.info.WellFormed()
    ensures status.MainUI? ==> o.info.sourceType.Some? && !o.info.sourceType.value.Other?
    // only "mainUI" can fail, and it fails before the image and the paused flag are written
    ensures o.failure.Some? ==> status.MainUI? && o.info.image == cur.image && o.info.paused == cur.paused
  {
    match status
    case NoUiStatus => Outcome(cur, None)
    case OtherUi(_) => Outcome(cur, None)
    case Apps(apps) => ShowApp(cur, apps)
    case MainUI(player) =>
      match player.sourceType
      case Replay => ShowRecording(cur, Replay, "eventId", player.source.eventId, "ReplayTV: ", player.speed, fetch)
      case Dvr => ShowRecording(cur, Dvr, "recordingId", player.source.recordingId, "Recording: ", player.speed, fetch)
      case Buffer => ShowBuffer(cur, player.source, player.speed, channels, fetch)
      case Channel => ShowLive(cur, player.source, channels, fetch)
      case _ => ShowFallback(cur, player.source, player.speed)
  }

  /** Apart from the placeholder, a status that is shown without error leaves nothing of the
      previous record behind: after a power-off the next status fully repopulates it. */
  lemma RenderForgetsPrevious(a: Snapshot, b: Snapshot, status: UiStatus,
                              channels: map<string, ChannelDescriptor>, fetch: Fetch)
    requires status.Apps? || (status.MainUI? && status.player.sourceType in {Replay, Dvr, Buffer, Channel})
    requires Render(a, status, channels, fetch).failure.None?
    ensures Render(b, status, channels, fetch) == Render(a, status, channels, fetch)
  {
  }

  /** The change callback fires when the status has a `uiStatus` and nothing was raised. */
  predicate Notifies(status: UiStatus, o: Outcome)
  {
    !status.NoUiStatus? && o.failure.None?
  }
}
