/** `find_playing_speaker`: which discovered Sonos speaker, if any, is
    playing Spotify. A speaker is given by the answers of its two queries, so
    a query that raises is a value here. */
module SonosClassifier {
  import opened Outcomes
  import opened Text

  /** A discovered speaker: its name and what `get_current_transport_info()`
      and `get_current_track_info()` answer (a dictionary, or an exception). */
  datatype Speaker = Speaker(
    name: string,
    transportInfo: Query<map<string, string>>,
    trackInfo: Query<map<string, string>>)

  /** The three ways a track can show that it comes from Spotify, in the
      order they are tried. */
  datatype Pattern =
    | NativeUri       // the URI carries the Sonos Spotify stream marker
    | VirtualLineIn   // a virtual line-in URI that also mentions Spotify
    | MetadataMarker  // only the metadata carries the stream marker

  const Patterns: seq<Pattern> := [NativeUri, VirtualLineIn, MetadataMarker]

  const TransportStateKey := "current_transport_state"
  const Playing := "PLAYING"
  const SpotifyMarker := "x-sonos-spotify:"
  const VirtualLineInPrefix := "x-sonos-vli:"
  const SpotifyScheme := "spotify:"

  predicate PatternHolds(p: Pattern, uri: string, metadata: string) {
    match p
    case NativeUri => Contains(uri, SpotifyMarker)
    case VirtualLineIn => StartsWith(uri, VirtualLineInPrefix) && Contains(uri, SpotifyScheme)
    case MetadataMarker => Contains(metadata, SpotifyMarker)
  }

  /** The first pattern of `ps` that the track matches. */
  function FirstMatch(ps: seq<Pattern>, uri: string, metadata: string): (m: Option<nat>)
    ensures m.None? <==> forall k :: 0 <= k < |ps| ==> !PatternHolds(ps[k], uri, metadata)
    ensures m.Some? ==> m.value < |ps| && PatternHolds(ps[m.value], uri, metadata)
    ensures m.Some? ==> forall k :: 0 <= k < m.value ==> !PatternHolds(ps[k], uri, metadata)
  {
    if ps == [] then None
    else if PatternHolds(ps[0], uri, metadata) then Some(0)
    else match FirstMatch(ps[1..], uri, metadata)
      case None => None
      case Some(k) => Some(k + 1)
  }

  /** The pattern by which a track is recognised (the one the log names). */
  function MatchedPattern(uri: string, metadata: string): (m: Option<Pattern>)
    ensures m.None? <==> !Contains(uri, SpotifyMarker)
                         && !(StartsWith(uri, VirtualLineInPrefix) && Contains(uri, SpotifyScheme))
                         && !Contains(metadata, SpotifyMarker)
    ensures m == Some(VirtualLineIn) ==> !Contains(uri, SpotifyMarker)
    ensures m == Some(MetadataMarker) ==>
              !Contains(uri, SpotifyMarker) && !(StartsWith(uri, VirtualLineInPrefix) && Contains(uri, SpotifyScheme))
    ensures m.Some? ==> PatternHolds(m.value, uri, metadata)
  {
    assert |Patterns| == 3 && Patterns[0] == NativeUri && Patterns[1] == VirtualLineIn && Patterns[2] == MetadataMarker;
    match FirstMatch(Patterns, uri, metadata)
    case None => None
    case Some(k) => Some(Patterns[k])
  }

  /** The transport state the speaker reports; `None` when the query raises
      or its answer lacks the state (a `KeyError`, caught alike). */
  function TransportState(sp: Speaker): Option<string> {
    match sp.transportInfo
    case Raised => None
    case Returned(info) => if TransportStateKey in info then Some(info[TransportStateKey]) else None
  }

  /** The speaker answers both queries, is playing, and its current track
      matches one of the Spotify patterns (a missing URI or metadata is "").
      A speaker whose transport or track query raised never qualifies. */
  predicate PlaysSpotify(sp: Speaker)
    ensures PlaysSpotify(sp) ==> sp.transportInfo.Returned? && sp.trackInfo.Returned?
    ensures PlaysSpotify(sp) ==> TransportStateKey in sp.transportInfo.value
                                 && sp.transportInfo.value[TransportStateKey] == Playing
  {
    && TransportState(sp) == Some(Playing)
    && sp.trackInfo.Returned?
    && MatchedPattern(Get(sp.trackInfo.value, "uri", ""), Get(sp.trackInfo.value, "metadata", "")).Some?
  }

  /** The first speaker, in discovery order, that plays Spotify. */
  function FirstPlaying(speakers: seq<Speaker>): (r: Option<nat>)
    ensures r.None? <==> forall j :: 0 <= j < |speakers| ==> !PlaysSpotify(speakers[j])
    ensures r.Some? ==> r.value < |speakers| && PlaysSpotify(speakers[r.value])
    ensures r.Some? ==> forall j :: 0 <= j < r.value ==> !PlaysSpotify(speakers[j])
  {
    if speakers == [] then None
    else if PlaysSpotify(speakers[0]) then Some(0)
    else
      var rest := FirstPlaying(speakers[1..]);
      assert forall j :: 1 <= j < |speakers| ==> speakers[j] == speakers[1..][j - 1];
      match rest
      case None => None
      case Some(k) => assert speakers[k + 1] == speakers[1..][k]; Some(k + 1)
  }

  /** Conversely, the first speaker that plays Spotify is the one chosen. */
  lemma {:induction false} FirstPlayingIsFirst(speakers: seq<Speaker>, i: nat)
    requires i < |speakers| && PlaysSpotify(speakers[i])
    requires forall j :: 0 <= j < i ==> !PlaysSpotify(speakers[j])
    ensures FirstPlaying(speakers) == Some(i)
  {
    var r := FirstPlaying(speakers);
    assert r.Some?;
    assert r.value == i;
  }

  /** The scan of `find_playing_speaker` over the speakers `soco.discover()`
      returned, in that order; the result is the index of the speaker. */
  method FindPlayingSpeaker(speakers: seq<Speaker>) returns (found: Option<nat>)
    ensures found == FirstPlaying(speakers)
  {
    if |speakers| == 0 {
      return None;
    }
    for i := 0 to |speakers|
      invariant forall j :: 0 <= j < i ==> !PlaysSpotify(speakers[j])
    {
      var speaker := speakers[i];
      match speaker.transportInfo {
        case Raised =>
          continue;
        case Returned(info) =>
          if TransportStateKey !in info || info[TransportStateKey] != Playing {
            continue;
          }
      }
      match speaker.trackInfo {
        case Raised =>
        case Returned(track) =>
          var uri := Get(track, "uri", "");
          var metadata := Get(track, "metadata", "");
          if Contains(uri, SpotifyMarker) {
            FirstPlayingIsFirst(speakers, i);
            return Some(i);
          }
          if StartsWith(uri, VirtualLineInPrefix) && Contains(uri, SpotifyScheme) {
            FirstPlayingIsFirst(speakers, i);
            return Some(i);
          }
          if Contains(metadata, SpotifyMarker) {
            FirstPlayingIsFirst(speakers, i);
            return Some(i);
          }
          assert !PlaysSpotify(speaker);
      }
    }
    return None;
  }

  /** A speaker whose transport or track query raises is passed over: the
      answer is the one for the speakers after it. */
  lemma UnreadableSpeakerSkipped(sp: Speaker, rest: seq<Speaker>)
    requires sp.transportInfo.Raised? || sp.trackInfo.Raised?
    ensures FirstPlaying([sp] + rest) ==
              match FirstPlaying(rest) case None => None case Some(k) => Some(k + 1)
  {
    var speakers := [sp] + rest;
    assert speakers[0] == sp && speakers[1..] == rest;
    assert !PlaysSpotify(speakers[0]);
  }

  /** A speaker that is not playing is passed over as well. */
  lemma IdleSpeakerSkipped(sp: Speaker, rest: seq<Speaker>)
    requires TransportState(sp) != Some(Playing)
    ensures FirstPlaying([sp] + rest) ==
              match FirstPlaying(rest) case None => None case Some(k) => Some(k + 1)
  {
    var speakers := [sp] + rest;
    assert speakers[0] == sp && speakers[1..] == rest;
    assert !PlaysSpotify(speakers[0]);
  }

  /** The pattern that recognised a speaker plays no part in choosing among
      speakers: an earlier speaker recognised only by its metadata wins over
      a later one whose URI carries the native stream marker. */
  lemma ScanOrderBeforePatternOrder()
    ensures var meta := Speaker("Kitchen",
                                Returned(map[TransportStateKey := Playing]),
                                Returned(map["metadata" := "x-sonos-spotify:spotify%3atrack%3a1"]));
            var native := Speaker("Living Room",
                                  Returned(map[TransportStateKey := Playing]),
                                  Returned(map["uri" := "x-sonos-spotify:spotify%3atrack%3a2"]));
            && MatchedPattern("", "x-sonos-spotify:spotify%3atrack%3a1") == Some(MetadataMarker)
            && MatchedPattern("x-sonos-spotify:spotify%3atrack%3a2", "") == Some(NativeUri)
            && FirstPlaying([meta, native]) == Some(0)
  {
    var m := "x-sonos-spotify:spotify%3atrack%3a1";
    assert StartsWith(m, SpotifyMarker);
    assert !Contains("", SpotifyMarker);
    assert !StartsWith("", VirtualLineInPrefix);
    assert StartsWith("x-sonos-spotify:spotify%3atrack%3a2", SpotifyMarker);
  }

  /** A virtual line-in source that mentions Spotify is recognised. */
  lemma VirtualLineInRecognised()
    ensures MatchedPattern("x-sonos-vli:RINCON_1:1,spotify:", "").Some?
  {
    var u := "x-sonos-vli:RINCON_1:1,spotify:";
    assert u[23..31] == SpotifyScheme;
    assert OccursAt(u, SpotifyScheme, 23);
    ContainsIffOccurs(u, SpotifyScheme);
    assert StartsWith(u, VirtualLineInPrefix);
  }
}
