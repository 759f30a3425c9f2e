/** `spotify_action_with_soco_fallback` and `refresh_spotify_token`: run a
    playback action through the Spotify Web API, refresh the token once when
    the API answers 401, and fall back to the Sonos speaker that plays Spotify
    when it answers 403. The collaborators' answers are inputs; what the
    dispatcher does is recorded as a trace of effects. */
module SpotifyDispatch {
  import opened Outcomes
  import opened SonosClassifier
  import Text

  /** The reactions the bot puts on a command. */
  const Success: string := "✅"
  const Failure: string := "🚫"

  /** The playback actions that go through the dispatcher: `next` runs
      `spotify.next_track` or `speaker.next()`, `pause` runs
      `spotify.pause_playback` or `speaker.pause()`. */
  datatype Action = SkipToNext | PausePlayback

  /** How one call into spotipy or SoCo ends. */
  datatype CallOutcome =
    | Ok
    | SpotifyError(status: int)  // spotipy.exceptions.SpotifyException with this http_status
    | OtherError                 // any other exception

  /** What the collaborators answer during one dispatch, in the order they
      are asked. */
  datatype Backend = Backend(
    playback: Query<bool>,            // current_playback(): raised, or whether a session came back
    first: CallOutcome,               // the first call of the Spotify action
    refresh: CallOutcome,             // the token exchange of refresh_spotify_token()
    retry: CallOutcome,               // the Spotify action called again after the refresh
    discovery: Query<seq<Speaker>>,   // soco.discover()
    local: CallOutcome)               // the SoCo action on the chosen speaker

  /** What the dispatcher causes, in order. */
  datatype Effect =
    | CurrentPlayback                       // GET /me/player
    | RemoteCall(action: Action, client: nat)  // the Spotify action, bound to client generation `client`
    | RefreshToken                          // refresh_spotify_token()
    | Discover                              // find_playing_speaker(): discovery and scan
    | LocalCall(action: Action, speaker: nat)  // the SoCo action on discovered speaker `speaker`

  /** How a dispatch ends: a reaction glyph, or an exception that escapes to
      the command handler. */
  datatype Reply = Answered(glyph: string) | Escaped

  datatype Run = Run(reply: Reply, trace: seq<Effect>)

  /** How many effects of each kind a trace holds. */
  datatype Tally = Tally(queries: nat, remotes: nat, refreshes: nat, scans: nat, locals: nat)

  function Add(n: Tally, e: Effect): Tally {
    match e
    case CurrentPlayback => n.(queries := n.queries + 1)
    case RemoteCall(_, _) => n.(remotes := n.remotes + 1)
    case RefreshToken => n.(refreshes := n.refreshes + 1)
    case Discover => n.(scans := n.scans + 1)
    case LocalCall(_, _) => n.(locals := n.locals + 1)
  }

  function TallyOf(t: seq<Effect>): Tally {
    if t == [] then Tally(0, 0, 0, 0, 0) else Add(TallyOf(t[..|t| - 1]), t[|t| - 1])
  }

  lemma TallySnoc(t: seq<Effect>, e: Effect)
    ensures TallyOf(t + [e]) == Add(TallyOf(t), e)
  {
    assert (t + [e])[..|t|] == t;
  }

  /** The decision tree of `spotify_action_with_soco_fallback` for `action`,
      whose Spotify half was bound to the client of generation `client`
      before the call. Every run answers "✅" or "🚫" or lets an exception
      escape, starts with the status query, calls Spotify only through the
      bound action, and acts locally only with the same action. */
  function Dispatch(action: Action, client: nat, b: Backend): (r: Run)
    ensures r.reply.Answered? ==> r.reply.glyph in {Success, Failure}
    ensures |r.trace| >= 1 && r.trace[0] == CurrentPlayback
    ensures forall e :: e in r.trace && e.RemoteCall? ==> e == RemoteCall(action, client)
    ensures forall e :: e in r.trace && e.LocalCall? ==> e.action == action
  {
    var asked := [CurrentPlayback];
    match b.playback
    case Raised => Run(Escaped, asked)
    case Returned(active) =>
      if !active then Run(Answered(Failure), asked)
      else
        var tried := asked + [RemoteCall(action, client)];
        match b.first
        case Ok => Run(Answered(Success), tried)
        case OtherError => Run(Escaped, tried)
        case SpotifyError(status) =>
          if status == 401 then
            var refreshed := tried + [RefreshToken];
            if !b.refresh.Ok? then Run(Escaped, refreshed)
            else Run(Answered(if b.retry.Ok? then Success else Failure),
                     refreshed + [RemoteCall(action, client)])
          else if status == 403 then
            var scanned := tried + [Discover];
            match b.discovery
            case Raised => Run(Escaped, scanned)
            case Returned(speakers) =>
              match FirstPlaying(speakers)
              case None => Run(Answered(Failure), scanned)
              case Some(i) =>
                Run(Answered(if b.local.Ok? then Success else Failure),
                    scanned + [LocalCall(action, i)])
          else Run(Answered(Failure), tried)
  }

  /** Every dispatch queries the status once, refreshes at most once, calls
      Spotify at most twice (twice only around a refresh), scans and acts
      locally at most once (locally only after a scan), and never both
      refreshes and falls back to a speaker. */
  lemma DispatchBounds(action: Action, client: nat, b: Backend)
    ensures var n := TallyOf(Dispatch(action, client, b).trace);
            && n.queries == 1
            && n.refreshes <= 1 && n.scans <= 1 && n.locals <= 1
            && n.remotes <= 2
            && (n.remotes == 2 ==> n.refreshes == 1)
            && (n.refreshes == 0 || n.scans == 0)
            && (n.locals == 1 ==> n.scans == 1)
  {
    var asked := [CurrentPlayback];
    var tried := asked + [RemoteCall(action, client)];
    var t := Dispatch(action, client, b).trace;
    if b.playback != Returned(true) {
      assert t == asked;
      TalliesOfTraces(action, client, 0);
    } else if !b.first.SpotifyError? || (b.first.status != 401 && b.first.status != 403) {
      assert t == tried;
      TalliesOfTraces(action, client, 0);
    } else if b.first.status == 401 {
      assert t == tried + [RefreshToken] || t == tried + [RefreshToken] + [RemoteCall(action, client)];
      TalliesOfTraces(action, client, 0);
    } else if b.discovery.Returned? && FirstPlaying(b.discovery.value).Some? {
      var i := FirstPlaying(b.discovery.value).value;
      assert t == tried + [Discover] + [LocalCall(action, i)];
      TalliesOfTraces(action, client, i);
    } else {
      assert t == tried + [Discover];
      TalliesOfTraces(action, client, 0);
    }
  }

  /** The tallies of the traces a dispatch can leave. */
  lemma TalliesOfTraces(action: Action, client: nat, i: nat)
    ensures var asked := [CurrentPlayback];
            var tried := asked + [RemoteCall(action, client)];
            && TallyOf(asked) == Tally(1, 0, 0, 0, 0)
            && TallyOf(tried) == Tally(1, 1, 0, 0, 0)
            && TallyOf(tried + [RefreshToken]) == Tally(1, 1, 1, 0, 0)
            && TallyOf(tried + [RefreshToken] + [RemoteCall(action, client)]) == Tally(1, 2, 1, 0, 0)
            && TallyOf(tried + [Discover]) == Tally(1, 1, 0, 1, 0)
            && TallyOf(tried + [Discover] + [LocalCall(action, i)]) == Tally(1, 1, 0, 1, 1)
  {
    var asked := [CurrentPlayback];
    var tried := asked + [RemoteCall(action, client)];
    assert asked[..0] == [];
    TallySnoc(asked, RemoteCall(action, client));
    TallySnoc(tried, RefreshToken);
    TallySnoc(tried + [RefreshToken], RemoteCall(action, client));
    TallySnoc(tried, Discover);
    TallySnoc(tried + [Discover], LocalCall(action, i));
  }

  /** No playback session: "🚫", and nothing is called after the status
      query (no Spotify action, no refresh, no scan, no SoCo action). */
  lemma NoPlaybackDoesNothing(action: Action, client: nat, b: Backend)
    requires b.playback == Returned(false)
    ensures Dispatch(action, client, b) == Run(Answered(Failure), [CurrentPlayback])
  {
  }

  /** The first Spotify call succeeds: "✅", with no refresh and no scan. */
  lemma FirstCallSucceeds(action: Action, client: nat, b: Backend)
    requires b.playback == Returned(true) && b.first == Ok
    ensures Dispatch(action, client, b) ==
              Run(Answered(Success), [CurrentPlayback, RemoteCall(action, client)])
  {
  }

  /** A 401: exactly one refresh, then exactly one retry of the action bound
      before the refresh (the same client generation, not the client the
      refresh created); "✅" iff the retry succeeds; never a scan or a SoCo
      action. A failing token exchange escapes before the retry. */
  lemma UnauthorizedRefreshesOnce(action: Action, client: nat, b: Backend)
    requires b.playback == Returned(true) && b.first == SpotifyError(401)
    ensures var r := Dispatch(action, client, b);
            && (b.refresh.Ok? ==>
                  && r.trace == [CurrentPlayback, RemoteCall(action, client), RefreshToken, RemoteCall(action, client)]
                  && r.reply == Answered(if b.retry.Ok? then Success else Failure))
            && (!b.refresh.Ok? ==>
                  r == Run(Escaped, [CurrentPlayback, RemoteCall(action, client), RefreshToken]))
  {
  }

  /** A 403 with no speaker playing Spotify: the classifier runs once and
      the answer is "🚫", with no SoCo action and no refresh. */
  lemma ForbiddenWithoutSpeakerFails(action: Action, client: nat, b: Backend, speakers: seq<Speaker>)
    requires b.playback == Returned(true) && b.first == SpotifyError(403)
    requires b.discovery == Returned(speakers)
    requires forall j :: 0 <= j < |speakers| ==> !PlaysSpotify(speakers[j])
    ensures Dispatch(action, client, b) == Run(Answered(Failure), [CurrentPlayback, RemoteCall(action, client), Discover])
  {
  }

  /** A 403 when speaker `i` is the first, in discovery order, to play
      Spotify: the SoCo action runs exactly once, on that speaker, and the
      glyph says whether it succeeded. No refresh. */
  lemma ForbiddenFallsBackToSonos(action: Action, client: nat, b: Backend, speakers: seq<Speaker>, i: nat)
    requires b.playback == Returned(true) && b.first == SpotifyError(403)
    requires b.discovery == Returned(speakers)
    requires i < |speakers| && PlaysSpotify(speakers[i])
    requires forall j :: 0 <= j < i ==> !PlaysSpotify(speakers[j])
    ensures var r := Dispatch(action, client, b);
            && r.trace == [CurrentPlayback, RemoteCall(action, client), Discover, LocalCall(action, i)]
            && r.reply == Answered(if b.local.Ok? then Success else Failure)
  {
    FirstPlayingIsFirst(speakers, i);
    ChosenSpeakerActs(action, client, b, speakers, i);
    FallbackTrace(action, client, i);
  }

  /** The 403 branch once the scan has settled on speaker `i`. */
  lemma ChosenSpeakerActs(action: Action, client: nat, b: Backend, speakers: seq<Speaker>, i: nat)
    requires b.playback == Returned(true) && b.first == SpotifyError(403)
    requires b.discovery == Returned(speakers) && FirstPlaying(speakers) == Some(i)
    ensures Dispatch(action, client, b) ==
              Run(Answered(if b.local.Ok? then Success else Failure),
                  [CurrentPlayback] + [RemoteCall(action, client)] + [Discover] + [LocalCall(action, i)])
  {
  }

  /** The trace of the 403 branch, written out. It is a lemma of its own
      because this equality of sequence displays is cheap alone and costly
      next to the unfolded `Dispatch`. */
  lemma FallbackTrace(action: Action, client: nat, i: nat)
    ensures [CurrentPlayback] + [RemoteCall(action, client)] + [Discover] + [LocalCall(action, i)]
            == [CurrentPlayback, RemoteCall(action, client), Discover, LocalCall(action, i)]
  {
  }

  /** Any other Spotify status: "🚫" with no refresh, retry or fallback. */
  lemma OtherStatusFails(action: Action, client: nat, b: Backend)
    requires b.playback == Returned(true) && b.first.SpotifyError?
    requires b.first.status != 401 && b.first.status != 403
    ensures Dispatch(action, client, b) == Run(Answered(Failure), [CurrentPlayback, RemoteCall(action, client)])
  {
  }

  /** Only `SpotifyException` is caught around the first call: any other
      exception escapes, as do failures of the status query, of the token
      exchange and of discovery. A raising SoCo action does not escape. */
  lemma EscapesExactly(action: Action, client: nat, b: Backend)
    ensures Dispatch(action, client, b).reply == Escaped <==>
              || b.playback.Raised?
              || (b.playback == Returned(true) && b.first.OtherError?)
              || (b.playback == Returned(true) && b.first == SpotifyError(401) && !b.refresh.Ok?)
              || (b.playback == Returned(true) && b.first == SpotifyError(403) && b.discovery.Raised?)
  {
  }

  /** A dispatch answers after a refresh exactly when a 401 led to a token
      exchange that succeeded. */
  lemma RefreshCompletedIff(action: Action, client: nat, b: Backend)
    ensures var r := Dispatch(action, client, b);
            (RefreshToken in r.trace && r.reply.Answered?) <==>
            (b.playback == Returned(true) && b.first == SpotifyError(401) && b.refresh.Ok?)
  {
    var r := Dispatch(action, client, b);
    if b.playback == Returned(true) && b.first == SpotifyError(401) {
      UnauthorizedRefreshesOnce(action, client, b);
    } else if b.playback == Returned(true) && b.first == SpotifyError(403) && b.discovery.Returned? {
      var speakers := b.discovery.value;
      if FirstPlaying(speakers).Some? {
        ForbiddenFallsBackToSonos(action, client, b, speakers, FirstPlaying(speakers).value);
      } else {
        ForbiddenWithoutSpeakerFails(action, client, b, speakers);
      }
    }
  }

  /** The global Spotify client and the access token cached by the OAuth
      manager, counted in generations: each refresh replaces both. */
  class SpotifySession {
    var client: nat
    var token: nat

    constructor ()
      ensures client == 0 && token == 0
    {
      client, token := 0, 0;
    }

    /** `refresh_spotify_token`: exchange the cached refresh token for a new
        access token, then replace the global client. If the exchange raises,
        the exception escapes and neither is replaced. */
    method RefreshSpotifyToken(exchange: CallOutcome) returns (escaped: bool)
      modifies this
      ensures escaped <==> !exchange.Ok?
      ensures escaped ==> client == old(client) && token == old(token)
      ensures !escaped ==> client == old(client) + 1 && token == old(token) + 1
    {
      if !exchange.Ok? {
        return true;
      }
      token := token + 1;
      client := client + 1;
      return false;
    }

    /** `spotify_action_with_soco_fallback`, with the Spotify action bound to
        client generation `bound`. It runs the decision tree of `Dispatch`
        and the session changes exactly when a 401 led to a token exchange
        that succeeded. */
    method SpotifyActionWithSocoFallback(action: Action, bound: nat, b: Backend) returns (r: Run)
      modifies this
      ensures r == Dispatch(action, bound, b)
      ensures if b.playback == Returned(true) && b.first == SpotifyError(401) && b.refresh.Ok?
              then client == old(client) + 1 && token == old(token) + 1
              else client == old(client) && token == old(token)
    {
      var trace := [CurrentPlayback];
      match b.playback {
        case Raised =>
          return Run(Escaped, trace);
        case Returned(active) =>
          if !active {
            return Run(Answered(Failure), trace);
          }
      }
      trace := trace + [RemoteCall(action, bound)];
      match b.first {
        case Ok =>
          return Run(Answered(Success), trace);
        case OtherError =>
          return Run(Escaped, trace);
        case SpotifyError(status) =>
          if status == 401 {
            trace := trace + [RefreshToken];
            var escaped := RefreshSpotifyToken(b.refresh);
            if escaped {
              return Run(Escaped, trace);
            }
            trace := trace + [RemoteCall(action, bound)];
            return Run(Answered(if b.retry.Ok? then Success else Failure), trace);
          }
          if status == 403 {
            trace := trace + [Discover];
            match b.discovery {
              case Raised =>
                return Run(Escaped, trace);
              case Returned(speakers) =>
                var found := FindPlayingSpeaker(speakers);
                if found.Some? {
                  trace := trace + [LocalCall(action, found.value)];
                  return Run(Answered(if b.local.Ok? then Success else Failure), trace);
                }
                return Run(Answered(Failure), trace);
            }
          }
          return Run(Answered(Failure), trace);
      }
    }

    /** `player_skip_to_next`: binds `spotify.next_track` of the current
        client, then dispatches; a retry after a refresh still calls the
        method of the client bound here. The session moves one generation
        exactly when a 401 led to a successful token exchange. */
    method PlayerSkipToNext(b: Backend) returns (r: Run)
      modifies this
      ensures r == Dispatch(SkipToNext, old(client), b)
      ensures if b.playback == Returned(true) && b.first == SpotifyError(401) && b.refresh.Ok?
              then client == old(client) + 1 && token == old(token) + 1
              else client == old(client) && token == old(token)
    {
      r := SpotifyActionWithSocoFallback(SkipToNext, client, b);
    }

    /** `player_pause_playback`: the same with `spotify.pause_playback`. */
    method PlayerPausePlayback(b: Backend) returns (r: Run)
      modifies this
      ensures r == Dispatch(PausePlayback, old(client), b)
      ensures if b.playback == Returned(true) && b.first == SpotifyError(401) && b.refresh.Ok?
              then client == old(client) + 1 && token == old(token) + 1
              else client == old(client) && token == old(token)
    {
      r := SpotifyActionWithSocoFallback(PausePlayback, client, b);
    }
  }

  /** A pause that Spotify refuses with 403 while one speaker plays the
      native Spotify stream pauses that speaker and answers "✅". */
  lemma RestrictedPauseUsesSpeaker()
    ensures var speaker := Speaker("Living Room",
                                   Returned(map[TransportStateKey := Playing]),
                                   Returned(map["uri" := "x-sonos-spotify:spotify%3atrack%3a7"]));
            var b := Backend(Returned(true), SpotifyError(403), Ok, Ok, Returned([speaker]), Ok);
            Dispatch(PausePlayback, 0, b) ==
              Run(Answered(Success), [CurrentPlayback, RemoteCall(PausePlayback, 0), Discover, LocalCall(PausePlayback, 0)])
  {
    assert Text.StartsWith("x-sonos-spotify:spotify%3atrack%3a7", SpotifyMarker);
  }
}
