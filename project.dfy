/** Fixed values of the application: display budgets, polling intervals and remote assets. */
module Project {

  const AppName: string := "Last.fm Discord Rich Presence"

  /** Character budget of one hover-text line. */
  const RpcLineLimit: int := 26
  /** The pad string, exactly as the constants file spells it: the three characters
      U+00E2 U+20AC U+20AC (the UTF-8 bytes of U+2000 EN QUAD read back as Windows-1252). */
  const RpcXChar: string := "\U{e2}\U{20ac}\U{20ac}"

  /** Seconds to wait after an idle or failed cycle, and after a cycle with a track. */
  const UpdateInterval: nat := 2
  const TrackCheckInterval: nat := 5
  const DefaultCooldown: int := 6

  const DefaultAvatarUrl: string :=
    "https://lastfm.freetls.fastly.net/i/u/avatar170s/818148bf682d429dc215c1705eb27b98.png"
  const LastfmIconUrl: string :=
    "https://www.last.fm/static/images/lastfm_avatar_applemusic.b06eb8ad89be.png"
  const DayModeCover: string := "https://i.imgur.com/GOVbNaF.png"
  const NightModeCover: string := "https://i.imgur.com/kvGS4Pa.png"

  const LastfmBaseUrl: string := "https://www.last.fm"

  /** The track page in the user's library; the username is inserted as given. */
  function LastfmTrackUrl(username: string, artist: string, title: string): string
  {
    LastfmBaseUrl + "/user/" + username + "/library/music/" + artist + "/_/" + title
  }

  function YtMusicSearchUrl(query: string): string
  {
    "https://music.youtube.com/search?q=" + query
  }
}

/** The translated strings the core asks for. The translation table itself is a
    parameter (`Messenger`): the model fixes which message is asked for, with which
    arguments, and not the wording. */
module Messages {

  /** The count shown in the artist-stats menu label: a number, or "..." while unknown. */
  datatype CountText = Known(n: nat) | Pending

  datatype Msg =
    | NightMode                                   // rpc_night_mode
    | DayMode                                     // rpc_day_mode
    | ScrobblesTotal(artistCount: nat, trackCount: nat)  // rpc_scrobbles_total
    | Scrobbles(count: nat)                       // rpc_scrobbles
    | Artists(count: nat)                         // rpc_artists
    | LovedTracks(count: nat)                     // rpc_loved_tracks
    | FirstTime                                   // rpc_first_time
    | ListeningNow                                // rpc_listening_now
    | FocusTrack                                  // menu_focus_track
    | NoTrack                                     // no_track
    | NowPlaying(track: string)                   // now_playing
    | DiscordStatus(detail: string)               // discord_status
    | ConnectedWithTime(time: string)             // connected_with_time
    | Connected                                   // connected
    | Disconnected                                // disconnected
    | ArtistScrobbles(artist: string, shown: CountText)  // artist_scrobbles
    | StatsLoading                                // stats_loading
    | StatsIdle                                   // stats_idle

  /** A loaded translation table. */
  type Messenger = Msg -> string
}
