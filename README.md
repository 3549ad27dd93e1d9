# ZiggoNext set-top box state, in Dafny

A model of `ZiggoNextBox` (`ziggonext/ziggonextbox.py`), the object that keeps a local copy of
one Ziggo Next set-top box's state. It is driven by parsed messages from the household's MQTT
broker and by lookups against the listings service.

- `ZiggoNextBox` is a class. Its fields are the lifecycle `state`, the `info` playing-info object,
  the `channels` table and whether a change callback is registered. Two ghost fields record what
  the box does to the outside world: `log` is every subscribe and publish in order, and `notified`
  counts how often the callback fired.
- The broker client is not modelled. `subscribe(t)` becomes `Subscribe(t)` appended to `log`, and
  `publish(t, m)` becomes `Publish(t, m)` with `m` as a `Message` datatype instead of JSON.
- The listings service is a function `Fetch` from a listing id to a `Response`, which holds the
  status code and the `program` part of the body. The three lookups are functions over it.
- `_makeId` takes its random choices as a parameter `picks`: the indices that `random.choice`
  returned.
- A Python exception that escapes a handler becomes a `Failure` result: `KeyError`, `IndexError`,
  or `TypeError` for `"ReplayTV: " + None`. The playing-info fields written before the exception
  keep their new values, because the source writes them one at a time through setters. Those
  fields are `PlayingInfo`, a class updated in place. `Render`, a pure function, gives the fields
  that `_update_settop_box` leaves, plus the exception if one was raised. The method
  `UpdateSettopBox` is proved against `Render`, and the properties of the status mapping are proved
  about `Render` and its per-branch functions.
- The lifecycle handler `_update_settopbox_state` is tied to `LifecycleEffects`. `Run` strings
  these effects together over a whole sequence of messages. The lemmas about `Run` show when the
  one-time bootstrap happens.

Behaviour of the code that is easy to misread, and that the model keeps:

- `register` publishes its presence message to `household/clientId/status`.
- The bootstrap runs whenever the stored state is still UNKNOWN, whatever state is reported. This
  includes a first report of standby. It subscribes to three topics: `household/clientId`,
  `household/boxId` and `household/boxId/status`. If the box itself keeps reporting UNKNOWN, the
  bootstrap repeats on every message (`BootstrapRepeatsWhileUnknown`).
- `info` is not replaced wholesale on a status update. Fields that a branch does not write keep
  their old values. The placeholder branch never writes `channelTitle`, so a stale channel title
  survives.
- For replay, DVR and buffer, a missing recording title is not shown as None. It raises
  `TypeError`. `_get_recording_title` does not check for `program`, so a 200 response without one
  raises `KeyError`. Only `_get_channel_title` returns None in that case.
- The logo check is on the literal prefix `"http:"`. A logo path that already starts with
  `https:` gets a second scheme (`NormalizeLogoPathOnHttps`).

## Model

| member | source | states |
|---|---|---|
| `Ids.MakeId` | ziggonext/ziggonextbox.py:30-32 | the id has exactly `stringLength` characters; character i is the letter picked by choice i, so every character is one of the 62 letters and digits |
| `Lookups.RecordingTitle` | ziggonext/ziggonextbox.py:200-207 | None on any status other than 200; KeyError("program") on a 200 without `program`; on a 200 with `program`, exactly Some(the program's title) |
| `Lookups.RecordingImage` | ziggonext/ziggonextbox.py:209-215 | None on any status other than 200; on a 200: KeyError("program") without `program`, IndexError when it has no images, and otherwise exactly Some(the first image url) |
| `Lookups.ChannelTitle` | ziggonext/ziggonextbox.py:217-227 | Some exactly when the status is 200 and `program` is present, and then the program's title; never raises |
| `Resolver.NormalizeLogoPath` | ziggonext/ziggonextbox.py:187-189 | the path is unchanged exactly when it starts with "http:", and otherwise "https:" is put in front; the result always starts with "http:" or "https:" |
| `Resolver.NormalizeLogoPathOnHttps` | ziggonext/ziggonextbox.py:188-189 | a path that already starts with "https:" gets "https:" put in front a second time |
| `Resolver.ShowRecording` | ziggonext/ziggonextbox.py:132-153 | replay/DVR: succeeds exactly when the id is given and the service answers 200 with a program that has an image; each failure is given with the whole record it leaves: a missing id is KeyError(key) with only the source type written; a non-200 answer is a TypeError and a 200 without `program` a KeyError("program"), both with the channel fields already cleared; no images is an IndexError with the title already written; on success both channel fields are None, the title is the prefix + the recording title, the image is the first image, paused == (speed == 0); a failure never touches the image or paused flag |
| `Resolver.ShowBuffer` | ziggonext/ziggonextbox.py:154-165 | buffer: succeeds exactly when both ids are given, the channel is in the table and the service answers 200 with a program; each failure is given with the whole record it leaves: a missing channel id, an unknown channel and a missing event id are KeyError("channelId"), KeyError(id) and KeyError("eventId") with only the source type written; a non-200 answer is a TypeError and a 200 without `program` a KeyError("program"), both with the channel and its title already written; on success the channel, its title and its stream image come from the table, the title is "Delayed: " + the recording title, paused == (speed == 0) |
| `Resolver.ShowLive` | ziggonext/ziggonextbox.py:166-177 | live channel: succeeds exactly when both ids are given and the channel is in the table; a missing channel id is KeyError("channelId"), then a missing event id KeyError("eventId"), then an unknown channel KeyError(id); on success the channel fields come from the table, the title is the listing title (possibly None), and paused is always false; on failure only the source type has changed |
| `Resolver.ShowFallback` | ziggonext/ziggonextbox.py:178-184 | any other source type: recorded as CHANNEL, channel None, title "Playing something...", image None, paused == (speed == 0); the channel title is left as it was; fails (KeyError) exactly when the event id is missing |
| `Resolver.ShowApp` | ziggonext/ziggonextbox.py:185-195 | apps: never fails; the source type is APP, channel None, title and channel title both the app name, the image is the normalised logo path, not paused |
| `Resolver.Render` | ziggonext/ziggonextbox.py:119-195 | no `uiStatus`, or an unrecognised one, leaves the record unchanged with no error; only the known source-type constants are ever stored; only "mainUI" can fail, and a failure leaves the image and paused flag untouched |
| `Resolver.RenderForgetsPrevious` | ziggonext/ziggonextbox.py:132-195 | for every branch except the placeholder, a status shown without error gives the same record whatever the previous record was (power-off followed by a status leaves nothing from before) |
| `Resolver.PlayingInfo.constructor` | ziggonext/ziggonextbox.py:48 | a new playing-info record has every field None and is not paused |
| `Lifecycle.LifecycleEffects` | ziggonext/ziggonextbox.py:86-97 | the three bootstrap subscriptions happen exactly when the stored state is UNKNOWN; the state requests are one for the bootstrap plus one more for any report other than standby (UNKNOWN to RUNNING gives two); the bootstrap (request, then the three subscriptions) comes first and the refresh request last; every publish is a CPE.getUiStatus request from this client on `household/boxId` |
| `Lifecycle.BootstrapAtMostOnce` | ziggonext/ziggonextbox.py:83-98 | over any sequence of messages in which this box never reports UNKNOWN, the subscriptions made are the three bootstrap topics once if the stored state started as UNKNOWN and a message for this box arrived, and none otherwise |
| `Lifecycle.BootstrapRepeatsWhileUnknown` | ziggonext/ziggonextbox.py:83-98 | if this box only reports UNKNOWN, the subscriptions made are exactly the three bootstrap topics repeated once per message for this box, in order, and the stored state stays UNKNOWN |
| `BoxSync.RemoteControlEffects` | ziggonext/ziggonextbox.py:229-251 | a remote-control action is exactly two publishes on `household/boxId`: the command first, then the CPE.getUiStatus state request from this client with the given id, and no subscriptions |
| `BoxSync.ZiggoNextBox.constructor` | ziggonext/ziggonextbox.py:43-54 | a new box is UNKNOWN, has an empty playing-info record, no channels, no callback, and has issued nothing |
| `BoxSync.ZiggoNextBox.Register` | ziggonext/ziggonextbox.py:62-71 | subscribes to `household` and `household/+/status`, then publishes the ONLINE_RUNNING/HGO presence message to `household/clientId/status` |
| `BoxSync.ZiggoNextBox.SetCallback` | ziggonext/ziggonextbox.py:73-74 | the last registration wins |
| `BoxSync.ZiggoNextBox.DoSubscribe` | ziggonext/ziggonextbox.py:76-79 | appends one subscription to the log |
| `BoxSync.ZiggoNextBox.UpdateSettopboxState` | ziggonext/ziggonextbox.py:81-100 | a message from another box changes nothing at all; otherwise the log grows by `LifecycleEffects` of the old and reported states, the state becomes the reported one, a standby report installs a fresh empty record, any other report keeps the same record, and the callback fires once if registered |
| `BoxSync.ZiggoNextBox.Bootstrap` | ziggonext/ziggonextbox.py:88-93 | one state request, then subscriptions to `household/clientId`, `household/boxId`, `household/boxId/status` in that order |
| `BoxSync.ZiggoNextBox.RequestSettopBoxState` | ziggonext/ziggonextbox.py:102-111 | appends exactly one publish to `household/boxId` of type CPE.getUiStatus with source clientId and an 8-character id made from the picks |
| `BoxSync.ZiggoNextBox.UpdateSettopBox` | ziggonext/ziggonextbox.py:113-198 | a message from another box changes nothing; otherwise the same record object ends with the fields `Render` gives from its old fields, the exception is `Render`'s, and the callback fires once (if registered) exactly when the status has a `uiStatus` and nothing was raised |
| `BoxSync.ZiggoNextBox.PlayRecording` | ziggonext/ziggonextbox.py:132-153 | writes the record in place as `ShowRecording` describes, stopping at the first exception |
| `BoxSync.ZiggoNextBox.PlayBuffer` | ziggonext/ziggonextbox.py:154-165 | writes the record in place as `ShowBuffer` describes, stopping at the first exception |
| `BoxSync.ZiggoNextBox.PlayLive` | ziggonext/ziggonextbox.py:166-177 | writes the record in place as `ShowLive` describes, stopping at the first exception |
| `BoxSync.ZiggoNextBox.PlayFallback` | ziggonext/ziggonextbox.py:178-184 | writes the record in place as `ShowFallback` describes |
| `BoxSync.ZiggoNextBox.PlayApp` | ziggonext/ziggonextbox.py:185-195 | writes the record in place as `ShowApp` describes |
| `BoxSync.ZiggoNextBox.SendKeyToBox` | ziggonext/ziggonextbox.py:229-237 | appends the key event (key embedded verbatim, CPE.KeyEvent, keyDownUp) and then a state request, as `RemoteControlEffects` |
| `BoxSync.ZiggoNextBox.SetChannel` | ziggonext/ziggonextbox.py:239-251 | appends the CPE.pushToTV command (its own 8-character id, this client, "Home Assistant", linear, the service id verbatim, position 0, speed 1) and then a state request, as `RemoteControlEffects` |
| `BoxSync.ZiggoNextBox.TurnOff` | ziggonext/ziggonextbox.py:253-254 | installs a fresh empty playing-info record and publishes nothing |

## Left out

- The paho MQTT client, its connection state (`_mqttClientConnected`) and transport errors from `subscribe` and `publish`. These calls are foreign I/O, recorded in the ghost `log`.
- `requests` and its transport errors (timeouts, DNS). Each lookup is a function of the listing id. `response.json()` failing on a body that is not JSON is not modelled.
- Lookups: within one update, the title GET and the image GET for the same id see the same response. The real service could answer the two requests differently.
- JSON encoding, including the hand-built JSON strings in `send_key_to_box` and `set_channel`. Messages are datatypes, and the key and service id are carried verbatim.
- `_makeId`'s randomness: the choices are the `picks` parameter, so only the length and alphabet of ids are stated.
- `_createUrls` and the country tables `COUNTRY_URLS_HTTP`/`COUNTRY_URLS_MQTT`: `const` is not part of this model. The KeyError for an unknown country code is therefore not modelled.
- The state and source-type `const` values are enum tags, not strings. Key codes are plain strings passed to `SendKeyToBox`; the `MEDIA_KEY_*` constants imported at lines 21-24 are not used by the core.
- `models`, which defines `ZiggoNextBoxPlayingInfo` and `ZiggoChannel`, is not part of this model. The record's defaults are taken as all None and not paused. Its setters are direct field writes.
- The token and the `available` flag: the core never reads them.
- Logging: the `logger.debug` calls (lines 79, 104, 118, 121-122, 202, 222) have no effect on the state and are not modelled.
- What the change callback does: only the number of times it fires is recorded.
- Thread and callback delivery concerns (concurrency).
- KeyError from missing payload keys other than those of `playerState.source` is not modelled (`source`, `state`, `status`, `playerState`, `sourceType`, `speed`, `appsState`, `logoPath`, `appName`). The parsed payload datatypes always carry them. Also not modelled: `program.title`, `program.images` (a KeyError("images") at line 214) or `images[0].url` missing in a 200 response.
- The `self.info is None` guard at line 130 is not modelled. In the model `info` always refers to a record, as it does after `__init__`.
