/** The Last.fm side of the poll: reading the scrobbler's now-playing track, fetching
    the per-track details, and the one-entry cache keyed by the track's string form. */
module Tracking {
  import opened Python
  import opened Project

  /** A pylast track, identified by its `str()` text ("Artist - Title"). */
  datatype Track = Track(text: string)

  /** The exceptions a pylast call can raise; `WsError` carries its `str()` text. */
  datatype PylastError = WsError(message: string) | NetworkError | MalformedResponse | OtherError

  /** How one call ends: it returns a value, raises, or ends the process with a status. */
  datatype Outcome<T> = Returned(value: T) | Raised(error: PylastError) | Exited(status: int)

  /** What one pylast getter does when called: returns a value or raises. */
  datatype Reply<T> = Ok(value: T) | Err(error: PylastError)

  /** How `get_now_playing()` behaves during this poll. */
  datatype CurrentReply = Playing(track: Track) | Idle | Fails(error: PylastError)

  /** How the track getters behave: title, artist name, album (absent for a track with
      no album), the album's cover image (absent when it has none) and the duration. */
  datatype DetailsReply = DetailsReply(title: Reply<string>, artist: Reply<string>,
                                       album: Reply<Option<string>>, cover: Reply<Option<string>>,
                                       duration: Reply<nat>)

  /** The five-field tuple `_get_track_info` returns. */
  datatype TrackInfo = TrackInfo(title: Option<string>, artist: Option<string>, album: Option<string>,
                                 artwork: Option<string>, timeRemaining: nat)

  const InvalidApiKey: string := "Invalid API key"

  /** The values the fields hold before any getter is called. */
  const NoInfo: TrackInfo := TrackInfo(None, None, None, None, 0)

  /** `_get_current_track`: the playing track, or `None` when nothing plays or a handled
      error was logged. A `WSError` about an invalid API key ends the process with
      status 1; any other kind of exception escapes. */
  function GetCurrentTrack(reply: CurrentReply): (r: Outcome<Option<Track>>)
    ensures r.Exited? <==> reply.Fails? && reply.error.WsError? && Contains(reply.error.message, InvalidApiKey)
    ensures r.Exited? ==> r.status == 1
    ensures r.Raised? <==> reply.Fails? && reply.error.OtherError?
    ensures r.Raised? ==> r.error == reply.error
    ensures r.Returned? && r.value.Some? <==> reply.Playing?
    ensures reply.Playing? ==> r == Returned(Some(reply.track))
  {
    match reply
    case Playing(t) => Returned(Some(t))
    case Idle => Returned(None)
    case Fails(e) =>
      match e
      case WsError(m) => if Contains(m, InvalidApiKey) then Exited(1) else Returned(None)
      case NetworkError => Returned(None)
      case MalformedResponse => Returned(None)
      case OtherError => Raised(e)
  }

  /** `_get_track_info` catches these two and returns what it has fetched so far. */
  predicate Handled(e: PylastError)
  {
    e.WsError? || e.NetworkError?
  }

  /** The getter raised `e` with `info` fetched so far. */
  function Stop(e: PylastError, info: TrackInfo): Outcome<TrackInfo>
  {
    if Handled(e) then Returned(info) else Raised(e)
  }

  /** `_get_track_info`: the getters run in order; the cover is asked for only when
      there is an album. A handled error stops the fetch and keeps the fields already
      fetched; any other error escapes. */
  function GetTrackInfo(d: DetailsReply): (r: Outcome<TrackInfo>)
    ensures !r.Exited?
    ensures r.Returned? ==> r.value.artwork.Some? ==> r.value.album.Some?
    ensures r.Raised? ==> !Handled(r.error)
  {
    match d.title
    case Err(e) => Stop(e, NoInfo)
    case Ok(title) =>
      match d.artist
      case Err(e) => Stop(e, NoInfo.(title := Some(title)))
      case Ok(artist) =>
        match d.album
        case Err(e) => Stop(e, NoInfo.(title := Some(title), artist := Some(artist)))
        case Ok(album) =>
          var fetched := NoInfo.(title := Some(title), artist := Some(artist), album := album);
          if album.Some? && d.cover.Err? then Stop(d.cover.error, fetched)
          else
            var artwork := if album.Some? then d.cover.value else None;
            match d.duration
            case Err(e) => Stop(e, fetched.(artwork := artwork))
            case Ok(duration) => Returned(fetched.(artwork := artwork, timeRemaining := duration))
  }

  /** A getter was called and returned `v`. */
  predicate Got<T(==)>(reply: Reply<T>, v: T)
  {
    reply == Ok(v)
  }

  /** Every getter succeeding yields all five fields, the artwork only with an album. */
  lemma TrackInfoComplete(title: string, artist: string, album: Option<string>,
                          cover: Reply<Option<string>>, duration: nat)
    requires album.Some? ==> cover.Ok?
    ensures GetTrackInfo(DetailsReply(Ok(title), Ok(artist), Ok(album), cover, Ok(duration))) ==
              Returned(TrackInfo(Some(title), Some(artist), album,
                                 if album.Some? then cover.value else None, duration))
  {
  }

  /** The returned fields are a prefix of the getters' results: each field present is
      exactly what its getter returned, and a missing field means every later one keeps
      its default (so nothing fetched before an error is lost, and nothing after it is
      invented). */
  lemma FetchedPrefixKept(d: DetailsReply)
    ensures var r := GetTrackInfo(d);
            r.Returned? ==>
              var info := r.value;
              (info.title.Some? ==> Got(d.title, info.title.value)) &&
              (info.artist.Some? ==> Got(d.artist, info.artist.value) && info.title.Some?) &&
              (info.album.Some? ==> Got(d.album, info.album) && info.artist.Some?) &&
              (info.artwork.Some? ==> Got(d.cover, info.artwork) && info.album.Some?) &&
              (info.timeRemaining > 0 ==> Got(d.duration, info.timeRemaining) && info.artist.Some?) &&
              (info.title.None? ==> info == NoInfo)
  {
  }

  /** The cover getter is never called for a track without an album: whatever it would
      do makes no difference. */
  lemma CoverIgnoredWithoutAlbum(d: DetailsReply, cover: Reply<Option<string>>)
    requires d.album == Ok(None)
    ensures GetTrackInfo(d.(cover := cover)) == GetTrackInfo(d)
  {
  }

  /** An error escapes exactly when a getter that is reached raises one that is not
      handled; the first getter raising a handled error leaves the defaults. */
  lemma EscapingErrors(d: DetailsReply)
    ensures d.title.Err? ==>
              GetTrackInfo(d) == if Handled(d.title.error) then Returned(NoInfo) else Raised(d.title.error)
    ensures d.title.Ok? && d.artist.Ok? && d.album.Ok? && d.duration.Ok? &&
            (d.album.value.Some? ==> d.cover.Ok?) ==>
              GetTrackInfo(d).Returned?
  {
  }

  /** What `now_playing` returns, given the cache it starts from: nothing playing gives
      `(None, None)`; a track with the cached string form gives the cached info; any
      other track gives freshly fetched info. An exit or an escaping exception ends the
      call instead. */
  function PollResult(lastTrack: Option<Track>, lastInfo: Option<TrackInfo>,
                      current: CurrentReply, details: DetailsReply): (r: Outcome<(Option<Track>, Option<TrackInfo>)>)
    ensures r.Exited? <==> GetCurrentTrack(current).Exited?
    ensures r.Exited? ==> r.status == 1
    ensures r.Returned? ==> GetCurrentTrack(current) == Returned(r.value.0)
    ensures r.Returned? && r.value.0.None? ==> r.value.1.None?
    ensures r.Returned? && r.value.0.Some? ==>
              if lastTrack.Some? && lastTrack.value.text == r.value.0.value.text then r.value.1 == lastInfo
              else r.value.1.Some?
  {
    match GetCurrentTrack(current)
    case Exited(status) => Exited(status)
    case Raised(e) => Raised(e)
    case Returned(track) =>
      if track.None? then Returned((None, None))
      else if lastTrack.Some? && lastTrack.value.text == track.value.text then Returned((track, lastInfo))
      else
        match GetTrackInfo(details)
        case Returned(info) => Returned((track, Some(info)))
        case Raised(e) => Raised(e)
        case Exited(status) => Exited(status)
  }

  /** The one-entry memory `now_playing` leaves: cleared when nothing plays, kept for the
      remembered track (same string form), the new track and its info once fetched, and
      kept as it was when the call exits or raises. */
  function MemoryAfterPoll(lastTrack: Option<Track>, lastInfo: Option<TrackInfo>,
                           current: CurrentReply, details: DetailsReply): (r: (Option<Track>, Option<TrackInfo>))
    ensures var p := PollResult(lastTrack, lastInfo, current, details);
            p.Returned? ==> (r.0.None? <==> p.value.0.None?) && r.1 == p.value.1 &&
                            (r.0.Some? ==> r.0.value.text == p.value.0.value.text)
    ensures !PollResult(lastTrack, lastInfo, current, details).Returned? ==> r == (lastTrack, lastInfo)
  {
    match GetCurrentTrack(current)
    case Returned(track) =>
      if track.None? then (None, None)
      else if lastTrack.Some? && lastTrack.value.text == track.value.text then (lastTrack, lastInfo)
      else (match GetTrackInfo(details)
            case Returned(info) => (track, Some(info))
            case _ => (lastTrack, lastInfo))
    case _ => (lastTrack, lastInfo)
  }

  /** A user's poll state: `last_track` and `last_track_info` are the one-entry cache. */
  class User {
    const username: string
    const cooldown: int
    var lastTrack: Option<Track>
    var lastTrackInfo: Option<TrackInfo>

    /** The two cache fields are set and cleared together. */
    ghost predicate Valid()
      reads this
    {
      lastTrack.Some? <==> lastTrackInfo.Some?
    }

    /** `cooldown` falls back to the default only when it is not given; zero is kept. */
    constructor (username: string, cooldown: Option<int>)
      ensures Valid() && lastTrack == None && lastTrackInfo == None
      ensures this.username == username
      ensures cooldown.Some? ==> this.cooldown == cooldown.value
      ensures cooldown.None? ==> this.cooldown == DefaultCooldown
    {
      this.username := username;
      this.cooldown := if cooldown.Some? then cooldown.value else DefaultCooldown;
      lastTrack := None;
      lastTrackInfo := None;
    }

    /** The cache answers for `t` when it holds a track with the same string form. */
    predicate Holds(t: Track)
      reads this
    {
      lastTrack.Some? && lastTrack.value.text == t.text
    }

    /** `now_playing`: nothing playing clears the cache; the cached track answers from
        the cache; a new track is fetched and becomes the cache entry. An exit or an
        escaping exception leaves the cache as it was. */
    method NowPlaying(current: CurrentReply, details: DetailsReply)
      returns (r: Outcome<(Option<Track>, Option<TrackInfo>)>)
      requires Valid()
      modifies this
      ensures Valid()
      ensures r == PollResult(old(lastTrack), old(lastTrackInfo), current, details)
      ensures (lastTrack, lastTrackInfo) == MemoryAfterPoll(old(lastTrack), old(lastTrackInfo), current, details)
      ensures r.Returned? ==> (r.value.0.Some? <==> r.value.1.Some?)
      ensures r.Returned? && r.value.0.Some? ==> Holds(r.value.0.value) && lastTrackInfo == r.value.1
      ensures GetCurrentTrack(current).Exited? ==> r == Exited(1) && unchanged(this)
      ensures GetCurrentTrack(current).Raised? ==> r == Raised(current.error) && unchanged(this)
      ensures GetCurrentTrack(current) == Returned(None) ==>
                r == Returned((None, None)) && lastTrack == None && lastTrackInfo == None
      ensures current.Playing? && old(Holds(current.track)) ==>
                r == Returned((Some(current.track), old(lastTrackInfo))) && unchanged(this)
      ensures current.Playing? && !old(Holds(current.track)) ==>
                match GetTrackInfo(details)
                case Returned(info) =>
                  r == Returned((Some(current.track), Some(info))) &&
                  lastTrack == Some(current.track) && lastTrackInfo == Some(info)
                case Raised(e) => r == Raised(e) && unchanged(this)
                case Exited(_) => false
    {
      var got := GetCurrentTrack(current);
      match got {
        case Exited(status) =>
          return Exited(status);
        case Raised(e) =>
          return Raised(e);
        case Returned(track) =>
          if track.Some? {
            if lastTrack.Some? && track.value.text == lastTrack.value.text {
              return Returned((track, lastTrackInfo));
            }
            var info := GetTrackInfo(details);
            if info.Raised? {
              return Raised(info.error);
            }
            lastTrack := track;
            lastTrackInfo := Some(info.value);
            return Returned((track, Some(info.value)));
          } else {
            lastTrack := None;
            lastTrackInfo := None;
            return Returned((None, None));
          }
      }
    }
  }
}
