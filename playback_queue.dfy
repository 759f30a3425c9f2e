/** `player_add_item_to_playback_queue`: search for a track, then queue it
    when a playback session is active, or else start it on a device chosen
    from the device list. The Spotify calls' answers are inputs. */
module PlaybackQueue {
  import opened Outcomes

  /** The top search result: its artists' names, its name and its URI. */
  datatype Track = Track(artists: seq<string>, name: string, uri: string)

  /** An entry of `spotify.devices()["devices"]`; the API may give no id. */
  datatype Device = Device(name: string, id: Option<string>)

  /** What the Spotify calls answer, in the order they are made. */
  datatype QueueBackend = QueueBackend(
    search: Query<seq<Track>>,     // spotify.search(...)["tracks"]["items"]
    playback: Query<bool>,         // current_playback(): whether a session came back
    addToQueue: Query<()>,         // spotify.add_to_queue(uri)
    devices: Query<seq<Device>>,   // spotify.devices()["devices"]
    startPlayback: Query<()>)      // spotify.start_playback(device_id=..., uris=[uri])

  /** The Spotify calls made, in order. */
  datatype Call =
    | Search(query: string)
    | CurrentPlayback
    | AddToQueue(uri: string)
    | ListDevices
    | StartPlayback(deviceId: string, uris: seq<string>)

  const NoResults := "No results"
  const QueueFailed := "Failed to add track to queue."
  const PreferredDevice := "Everywhere"

  function Queued(artist: string, name: string): string {
    "Queued: " + artist + " - " + name
  }

  function Started(artist: string, name: string): string {
    "Started playback: " + artist + " - " + name
  }

  /** The index of the first device named "Everywhere". */
  function FirstPreferred(devices: seq<Device>): (k: Option<nat>)
    ensures k.None? <==> forall j :: 0 <= j < |devices| ==> devices[j].name != PreferredDevice
    ensures k.Some? ==> k.value < |devices| && devices[k.value].name == PreferredDevice
    ensures k.Some? ==> forall j :: 0 <= j < k.value ==> devices[j].name != PreferredDevice
  {
    if devices == [] then None
    else if devices[0].name == PreferredDevice then Some(0)
    else match FirstPreferred(devices[1..])
      case None => None
      case Some(k) => Some(k + 1)
  }

  /** The `device_id` the selection settles on: the id of the first
      "Everywhere" device; when there is none, or its id is null, the id of
      the first device; `None` for an empty list. The id chosen is always
      that of a listed device, and it is null only when the first device's
      id is null too. */
  function ChosenDevice(devices: seq<Device>): (r: Option<string>)
    ensures |devices| == 0 ==> r.None?
    ensures r.None? && |devices| > 0 ==> devices[0].id.None?
    ensures r.Some? ==> exists j :: 0 <= j < |devices| && devices[j].id == r
  {
    var preferred := match FirstPreferred(devices) case Some(k) => devices[k].id case None => None;
    if preferred.None? && |devices| > 0 then devices[0].id else preferred
  }

  /** Python truthiness of `device_id`: not None and not empty. */
  predicate Usable(id: Option<string>) {
    id.Some? && id.value != ""
  }

  /** The device-selection loop: stop at the first "Everywhere" device,
      otherwise take the first device's id. */
  method SelectDevice(devices: seq<Device>) returns (deviceId: Option<string>)
    ensures deviceId == ChosenDevice(devices)
  {
    deviceId := None;
    var i := 0;
    while i < |devices|
      invariant 0 <= i <= |devices|
      invariant forall j :: 0 <= j < i ==> devices[j].name != PreferredDevice
    {
      if devices[i].name == PreferredDevice {
        deviceId := devices[i].id;
        assert FirstPreferred(devices) == Some(i);
        break;
      }
      i := i + 1;
    }
    if deviceId.None? && |devices| > 0 {
      deviceId := devices[0].id;
    }
  }

  /** A device list whose first "Everywhere" device has an id starts
      playback there, whatever comes before or after it. */
  lemma PreferredDeviceWins(devices: seq<Device>, k: nat)
    requires k < |devices| && devices[k].name == PreferredDevice && devices[k].id.Some?
    requires forall j :: 0 <= j < k ==> devices[j].name != PreferredDevice
    ensures ChosenDevice(devices) == devices[k].id
  {
    var f := FirstPreferred(devices);
    assert f.Some?;
    assert f.value == k;
  }

  /** When the first "Everywhere" device has a null id, the first device is
      used: a later "Everywhere" device is not consulted. */
  lemma NullPreferredFallsBack(devices: seq<Device>, k: nat)
    requires k < |devices| && devices[k].name == PreferredDevice && devices[k].id.None?
    requires forall j :: 0 <= j < k ==> devices[j].name != PreferredDevice
    ensures ChosenDevice(devices) == devices[0].id
  {
    var f := FirstPreferred(devices);
    assert f.Some?;
    assert f.value == k;
  }

  /** Without any "Everywhere" device, the first device is used. */
  lemma FirstDeviceOtherwise(devices: seq<Device>)
    requires |devices| > 0
    requires forall j :: 0 <= j < |devices| ==> devices[j].name != PreferredDevice
    ensures ChosenDevice(devices) == devices[0].id
  {
  }

  /** `player_add_item_to_playback_queue(query)`. Every exception is caught
      and answered with the failure message, so the call always returns. */
  method PlayerAddItemToPlaybackQueue(query: string, b: QueueBackend) returns (reply: string, calls: seq<Call>)
    ensures b.search.Raised? ==> reply == QueueFailed && calls == [Search(query)]
    ensures b.search == Returned([]) ==> reply == NoResults && calls == [Search(query)]
    ensures b.search.Returned? && b.search.value != [] && b.search.value[0].artists == [] ==>
              reply == QueueFailed && calls == [Search(query)]
    ensures b.search.Returned? && b.search.value != [] && b.search.value[0].artists != [] ==>
              var t := b.search.value[0];
              var artist := t.artists[0];
              && |calls| >= 2 && calls[..2] == [Search(query), CurrentPlayback]
              && (b.playback.Raised? ==> reply == QueueFailed && |calls| == 2)
              && (b.playback == Returned(true) ==>
                    && calls == [Search(query), CurrentPlayback, AddToQueue(t.uri)]
                    && reply == (if b.addToQueue.Returned? then Queued(artist, t.name) else QueueFailed))
              && (b.playback == Returned(false) ==>
                    && |calls| >= 3 && calls[2] == ListDevices
                    && (b.devices.Raised? ==> reply == QueueFailed && |calls| == 3)
                    && (b.devices.Returned? ==>
                          var id := ChosenDevice(b.devices.value);
                          && (Usable(id) ==>
                                && calls == [Search(query), CurrentPlayback, ListDevices, StartPlayback(id.value, [t.uri])]
                                && reply == (if b.startPlayback.Returned? then Started(artist, t.name) else QueueFailed))
                          && (!Usable(id) ==> reply == NoResults && |calls| == 3)))
  {
    calls := [Search(query)];
    if b.search.Raised? {
      return QueueFailed, calls;
    }
    var items := b.search.value;
    if |items| == 0 {
      return NoResults, calls;
    }
    if |items[0].artists| == 0 {
      // IndexError on ["artists"][0], caught by the generic handler
      return QueueFailed, calls;
    }
    var artist := items[0].artists[0];
    var name := items[0].name;
    var uri := items[0].uri;

    calls := calls + [CurrentPlayback];
    match b.playback {
      case Raised =>
        return QueueFailed, calls;
      case Returned(active) =>
        if active {
          calls := calls + [AddToQueue(uri)];
          if b.addToQueue.Raised? {
            return QueueFailed, calls;
          }
          return Queued(artist, name), calls;
        }
    }

    calls := calls + [ListDevices];
    if b.devices.Raised? {
      return QueueFailed, calls;
    }
    var deviceId := SelectDevice(b.devices.value);
    if deviceId.Some? && deviceId.value != "" {
      calls := calls + [StartPlayback(deviceId.value, [uri])];
      if b.startPlayback.Raised? {
        return QueueFailed, calls;
      }
      return Started(artist, name), calls;
    }
    return NoResults, calls;
  }
}
