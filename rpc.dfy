/** The presence session: the connection to the chat client, the display
    preferences, the render memo that makes repeated updates no-ops, the one-entry
    metadata cache, and `update_status`, which assembles and pushes the payload. */
module Rpc {
  import opened Python
  import opened Project
  import opened Messages
  import opened RpcText
  import opened RpcAssets

  /** A reading of the local clock: hour and minute, and the epoch time in seconds. */
  datatype Now = Now(hour: nat, minute: nat, timestamp: int)

  /** How `connect()` on the presence channel ends. */
  datatype ConnectResult = ConnectOk | DiscordNotFound | ConnectError

  /** How the chat client's channel behaves during one call: whether building the
      `Presence` object succeeds, how `connect()` ends, whether `update()` succeeds,
      and whether `clear()` and `close()` both succeed. */
  datatype Discord = Discord(presenceOk: bool, connect: ConnectResult, updateOk: bool, clearCloseOk: bool)

  /** What the profile and library helpers return for the current request
      (`None` for a missing or empty record). */
  datatype Stats = Stats(userData: Option<UserData>, libraryData: Option<LibraryData>)

  class DiscordRpc {
    /** `self.RPC is not None`: a `Presence` object has been built. */
    var presence: bool
    var enabled: bool
    var disabled: bool
    var startTime: Option<int>
    var lastTrack: Option<string>
    var connectionTime: Option<Now>
    var currentArtist: Option<string>
    var artistScrobbles: Option<nat>

    /** The ten display attributes (`show_scrobbles` … `focus_artist`), held together. */
    var prefs: Prefs

    var lastFetchedTrack: Option<string>
    var cachedUserData: Option<UserData>
    var cachedLibraryData: Option<LibraryData>

    function Preferences(): Prefs
      reads this
    {
      prefs
    }

    /** The session invariant: the two flags always disagree, a connected session has
        a `Presence` object, and exactly one small-image source is selected. */
    ghost predicate Valid()
      reads this
    {
      enabled == !disabled && (enabled ==> presence) && SourceExclusive(Preferences())
    }

    predicate IsConnected()
      reads this
    {
      enabled && !disabled
    }

    /** The connection part of the state. */
    ghost function Link(): (bool, bool, bool, Option<Now>)
      reads this
    {
      (presence, enabled, disabled, connectionTime)
    }

    /** The render memo: last rendered track, its artist and the artist's play count. */
    ghost function Memo(): (Option<string>, Option<string>, Option<nat>)
      reads this
    {
      (lastTrack, currentArtist, artistScrobbles)
    }

    ghost function Cache(): (Option<string>, Option<UserData>, Option<LibraryData>)
      reads this
    {
      (lastFetchedTrack, cachedUserData, cachedLibraryData)
    }

    /** `update_status` returns at once for this track. */
    predicate AlreadyRendered(track: string)
      reads this
    {
      lastTrack == Some(track) && currentArtist.Some?
    }

    /** The cache can answer for this track without a fetch. */
    predicate CacheHit(track: string)
      reads this
    {
      lastFetchedTrack == Some(track) && cachedUserData.Some? && cachedLibraryData.Some?
    }

    /** The pair `_get_metadata_with_cache` returns; both or neither present. */
    function Metadata(track: string, stats: Stats): (Option<UserData>, Option<LibraryData>)
      reads this
    {
      if CacheHit(track) then (cachedUserData, cachedLibraryData)
      else if stats.userData.None? || stats.libraryData.None? then (None, None)
      else (stats.userData, stats.libraryData)
    }

    /** What `update_status` renders for a track from the current state: nothing for a
        track already rendered or one whose metadata cannot be had, otherwise the payload
        built under the current preferences from that metadata. */
    function Pending(track: string, title: string, artist: string, album: string, timeRemaining: nat,
                     username: string, artwork: Option<string>, stats: Stats, now: Now, h: Helpers)
      : Option<Payload>
      reads this
    {
      var m := Metadata(track, stats);
      if AlreadyRendered(track) || m.0.None? || m.1.None? then None
      else Some(StatusPayload(Preferences(), title, artist, album, timeRemaining, username, artwork,
                              m.0.value, m.1.value, now.hour, now.timestamp, h))
    }

    constructor ()
      ensures Valid() && !IsConnected() && !presence
      ensures startTime == None && connectionTime == None && Memo() == (None, None, Some(0))
      ensures Preferences() == InitialPrefs
      ensures Cache() == (None, None, None)
    {
      presence := false;
      enabled, disabled := false, true;
      startTime, lastTrack, connectionTime, currentArtist := None, None, None, None;
      artistScrobbles := Some(0);
      prefs := InitialPrefs;
      lastFetchedTrack, cachedUserData, cachedLibraryData := None, None, None;
    }

    /** `_connect`: a connected session is left alone; otherwise a `Presence` object
        is built if there is none and `connect()` is tried. Every failure is logged
        and leaves both flags as they were. */
    method Connect(d: Discord, now: Now)
      requires Valid()
      modifies this
      ensures Valid()
      ensures old(enabled) ==> unchanged(this)
      ensures !old(enabled) ==> presence == (old(presence) || d.presenceOk)
      ensures IsConnected() == (old(IsConnected()) || (presence && d.connect == ConnectOk))
      ensures IsConnected() && !old(IsConnected()) ==> connectionTime == Some(now)
      ensures !IsConnected() ==> enabled == old(enabled) && disabled == old(disabled) &&
                                 connectionTime == old(connectionTime)
      ensures Memo() == old(Memo()) && Cache() == old(Cache()) && startTime == old(startTime)
      ensures Preferences() == old(Preferences())
    {
      if !enabled {
        if !presence {
          if !d.presenceOk {
            return;
          }
          presence := true;
        }
        if d.connect == ConnectOk {
          connectionTime := Some(now);
          enabled := true;
          disabled := false;
        }
      }
    }

    /** `_disconnect`: a connected session clears and closes the channel, forgets the
        connection time and the render memo, and becomes disconnected. If `clear()` or
        `close()` raises, the exception escapes (`raised`) and nothing has changed. */
    method Disconnect(clearCloseOk: bool) returns (raised: bool)
      requires Valid()
      modifies this
      ensures Valid()
      ensures raised <==> old(IsConnected()) && !clearCloseOk
      ensures !raised ==> !IsConnected()
      ensures raised || !old(IsConnected()) ==> unchanged(this)
      ensures old(IsConnected()) && !raised ==>
                Memo() == (None, None, None) && connectionTime == None && presence
      ensures Cache() == old(Cache()) && startTime == old(startTime)
      ensures Preferences() == old(Preferences())
    {
      raised := false;
      if !disabled && presence {
        if !clearCloseOk {
          raised := true;
          return;
        }
        connectionTime := None;
        lastTrack := None;
        currentArtist := None;
        artistScrobbles := None;
        disabled := true;
        enabled := false;
      }
    }

    method Enable(d: Discord, now: Now)
      requires Valid()
      modifies this
      ensures Valid()
      ensures old(IsConnected()) ==> unchanged(this)
      ensures !old(IsConnected()) ==> presence == (old(presence) || d.presenceOk)
      ensures IsConnected() == (old(IsConnected()) || (presence && d.connect == ConnectOk))
      ensures IsConnected() && !old(IsConnected()) ==> connectionTime == Some(now)
      ensures !IsConnected() ==> enabled == old(enabled) && disabled == old(disabled) &&
                                 connectionTime == old(connectionTime)
      ensures Memo() == old(Memo()) && Cache() == old(Cache()) && startTime == old(startTime)
      ensures Preferences() == old(Preferences())
    {
      Connect(d, now);
    }

    method Disable(clearCloseOk: bool) returns (raised: bool)
      requires Valid()
      modifies this
      ensures Valid()
      ensures raised <==> old(IsConnected()) && !clearCloseOk
      ensures !old(IsConnected()) ==> unchanged(this) && !raised
      ensures !raised ==> !IsConnected()
      ensures old(IsConnected()) && !raised ==>
                Memo() == (None, None, None) && connectionTime == None && presence
      ensures raised ==> unchanged(this)
      ensures Cache() == old(Cache()) && startTime == old(startTime)
      ensures Preferences() == old(Preferences())
    {
      raised := Disconnect(clearCloseOk);
    }

    /** The menu's `setattr` calls on the display attributes; the connection, the
        memo and the cache are not touched. */
    method SetPreferences(p: Prefs)
      modifies this`prefs
      ensures Preferences() == p
      ensures old(Valid()) && SourceExclusive(p) ==> Valid()
      ensures Link() == old(Link()) && IsConnected() == old(IsConnected())
    {
      prefs := p;
    }

    /** `last_track = None`: the next `update_status` is not skipped, whatever the track. */
    method ForgetLastTrack()
      modifies this`lastTrack
      ensures lastTrack == None && forall t :: !AlreadyRendered(t)
      ensures old(Valid()) ==> Valid()
      ensures Preferences() == old(Preferences()) && Link() == old(Link()) && IsConnected() == old(IsConnected())
    {
      lastTrack := None;
    }

    /** `_format_image_text`: builds the text entry by entry. */
    method FormatImageText(lines: seq<Line>, limit: int, xchar: string) returns (text: string)
      ensures text == ImageText(lines, limit, xchar)
    {
      var result := "";
      var i := 0;
      assert lines[..0] == [];
      while i < |lines|
        invariant 0 <= i <= |lines|
        invariant result == Joined(lines[..i], |lines|, limit, xchar)
      {
        ghost var before := result;
        var line := lines[i].value + " ";
        if IsLargeKey(lines[i].key) {
          if |lines| == 1 {
            assert i == 0 && lines[..0] == [];
            result := line;
          } else {
            result := result + (line + Repeat(xchar, PadCount(line, limit)) + " ");
          }
        } else {
          var suffix := if |line| > LongLine then "" else Repeat(xchar, PadCount(line, limit));
          result := result + (line + suffix + " ");
        }
        assert result == before + Piece(lines[i], |lines|, limit, xchar);
        JoinedStep(lines, i, |lines|, limit, xchar);
        assert result == Joined(lines[..i + 1], |lines|, limit, xchar);
        i := i + 1;
      }
      assert lines[..i] == lines;
      if |result| > HostTextLimit {
        result := RemoveAll(result, xchar);
      }
      text := Strip(result);
    }

    /** `_prepare_small_image_details`: nothing when the small image is off; otherwise
        the selected asset and the formatted hover lines. */
    method PrepareSmallImageDetails(user: UserData, username: string, tr: Messenger)
      returns (asset: Option<string>, text: Option<string>)
      ensures (asset, text) == SmallImageDetails(Preferences(), user, username, tr)
    {
      if !prefs.showSmallImage {
        return None, None;
      }
      asset := SmallImageAsset(Preferences(), user);
      var lines := SmallImageEntries(Preferences(), user, username);
      var t := FormatImageText(Render(lines, tr), RpcLineLimit, RpcXChar);
      text := Some(t);
    }

    /** `_prepare_artwork_and_large_text`. */
    method PrepareArtworkAndLargeText(artwork: Option<string>, album: string, library: LibraryData,
                                      hour: nat, tr: Messenger)
      returns (asset: string, text: string)
      ensures (asset, text) == LargeImageDetails(artwork, album, library, Preferences(), hour, tr)
    {
      var lines;
      asset, lines := ArtworkStatus(artwork, library.artistCount, library.trackCount,
                                    prefs.showArtistScrobblesLarge, hour).0,
                      ArtworkStatus(artwork, library.artistCount, library.trackCount,
                                    prefs.showArtistScrobblesLarge, hour).1;
      text := FormatImageText(Render(lines, tr), RpcLineLimit, RpcXChar);
      if text == "" || Strip(text) == "" {
        text := if album != "" then album else tr(ListeningNow);
      }
    }

    /** `_get_metadata_with_cache`: a hit answers from the cache with no fetch;
        otherwise the profile and then the library are fetched (`fetches` counts the
        calls), and the cache is overwritten only when both are present. */
    method GetMetadataWithCache(track: string, stats: Stats)
      returns (user: Option<UserData>, library: Option<LibraryData>, fetches: nat)
      modifies this`lastFetchedTrack, this`cachedUserData, this`cachedLibraryData
      ensures (user, library) == old(Metadata(track, stats))
      ensures user.Some? <==> library.Some?
      ensures old(CacheHit(track)) ==> fetches == 0 && Cache() == old(Cache())
      ensures !old(CacheHit(track)) ==> fetches == if stats.userData.None? then 1 else 2
      ensures !old(CacheHit(track)) && user.Some? ==>
                Cache() == (Some(track), stats.userData, stats.libraryData)
      ensures user.None? ==> Cache() == old(Cache())
      ensures user.Some? ==> CacheHit(track)
      ensures Preferences() == old(Preferences()) && Memo() == old(Memo()) && Link() == old(Link())
      ensures IsConnected() == old(IsConnected()) && Valid() == old(Valid())
    {
      if lastFetchedTrack == Some(track) && cachedUserData.Some? && cachedLibraryData.Some? {
        return cachedUserData, cachedLibraryData, 0;
      }
      user := stats.userData;
      fetches := 1;
      if user.None? {
        return None, None, fetches;
      }
      library := stats.libraryData;
      fetches := 2;
      if library.None? {
        return None, None, fetches;
      }
      lastFetchedTrack := Some(track);
      cachedUserData := user;
      cachedLibraryData := library;
    }

    /** `_send_rpc_update`: with a `Presence` object the payload is handed to
        `update()`; if that raises, the session is force-disconnected. */
    method SendRpcUpdate(payload: Payload, d: Discord) returns (sent: bool, raised: bool)
      requires Valid()
      modifies this
      ensures Valid()
      ensures sent == old(presence)
      ensures !sent || d.updateOk ==> unchanged(this) && !raised
      ensures sent && !d.updateOk ==>
                (raised <==> old(IsConnected()) && !d.clearCloseOk) &&
                (!raised ==> !IsConnected()) &&
                (old(IsConnected()) && !raised ==> Memo() == (None, None, None) && connectionTime == None && presence) &&
                (raised || !old(IsConnected()) ==> unchanged(this))
      ensures Cache() == old(Cache()) && startTime == old(startTime)
      ensures Preferences() == old(Preferences())
    {
      sent, raised := false, false;
      if presence {
        sent := true;
        if !d.updateOk {
          raised := Disconnect(d.clearCloseOk);
        }
      }
    }

    /** The bookkeeping `update_status` does before building the payload: the start
        time of the render and the memo that makes the next call for it a no-op. */
    method RecordRender(track: string, artist: string, artistCount: nat, timestamp: int)
      modifies this`startTime, this`lastTrack, this`currentArtist, this`artistScrobbles
      ensures startTime == Some(timestamp) && AlreadyRendered(track)
      ensures Memo() == (Some(track), Some(artist), Some(artistCount))
      ensures Preferences() == old(Preferences()) && Link() == old(Link()) && Cache() == old(Cache())
      ensures IsConnected() == old(IsConnected()) && Valid() == old(Valid())
    {
      startTime := Some(timestamp);
      lastTrack := Some(track);
      currentArtist := Some(artist);
      artistScrobbles := Some(artistCount);
    }

    /** The payload-building half of `update_status`: title padding, buttons, both
        image assets and their hover texts, assembled under the current preferences. */
    method BuildPayload(p: Prefs, title: string, artist: string, album: string, timeRemaining: nat,
                        username: string, artwork: Option<string>, user: UserData,
                        library: LibraryData, now: Now, h: Helpers)
      returns (payload: Payload)
      requires p == Preferences()
      ensures payload == StatusPayload(p, title, artist, album, timeRemaining, username,
                                       artwork, user, library, now.hour, now.timestamp, h)
    {
      var t := if |title| < 2 then title + " " else title;
      var buttons := Buttons(username, artist, t, album, h);
      var smallAsset, smallText := PrepareSmallImageDetails(user, username, h.messenger);
      var largeAsset, largeText := PrepareArtworkAndLargeText(artwork, album, library, now.hour, h.messenger);
      payload := AssemblePayload(p, t, artist, album, timeRemaining, now.timestamp,
                                 buttons, (smallAsset, smallText), (largeAsset, largeText));
    }

    /** The render at the end of `update_status`: records the start time and the memo,
        then pushes the payload built under preferences `p` when there is a `Presence`
        object; a failed push disconnects, which forgets the memo again. */
    method RecordAndPush(p: Prefs, track: string, title: string, artist: string, album: string,
                         timeRemaining: nat, username: string, artwork: Option<string>, user: UserData,
                         library: LibraryData, now: Now, d: Discord, h: Helpers)
      returns (sent: Option<Payload>, raised: bool)
      requires Valid() && p == Preferences()
      modifies this
      ensures Valid() && Preferences() == p
      ensures sent == if old(presence) then Some(StatusPayload(p, title, artist, album, timeRemaining, username,
                                                               artwork, user, library, now.hour, now.timestamp, h))
                      else None
      ensures raised <==> old(presence) && !d.updateOk && old(IsConnected()) && !d.clearCloseOk
      ensures old(presence) && !d.updateOk && old(IsConnected()) && !raised ==>
                !IsConnected() && Memo() == (None, None, None) && connectionTime == None && presence
      ensures !(old(presence) && !d.updateOk && old(IsConnected()) && !raised) ==>
                Memo() == (Some(track), Some(artist), Some(library.artistCount)) && Link() == old(Link())
      ensures Cache() == old(Cache()) && startTime == Some(now.timestamp)
    {
      RecordRender(track, artist, library.artistCount, now.timestamp);
      var payload := BuildPayload(p, title, artist, album, timeRemaining, username, artwork,
                                  user, library, now, h);
      var pushed;
      pushed, raised := SendRpcUpdate(payload, d);
      sent := if pushed then Some(payload) else None;
    }

    /** `update_status` past its skip guard: the metadata lookup, then either an abort
        that leaves the session alone, or the recorded render and the push. */
    method RenderTrack(track: string, title: string, artist: string, album: string,
                       timeRemaining: nat, username: string, artwork: Option<string>,
                       stats: Stats, d: Discord, now: Now, h: Helpers)
      returns (sent: Option<Payload>, raised: bool, ghost prefs: Prefs,
               ghost m: (Option<UserData>, Option<LibraryData>))
      requires Valid()
      modifies this
      ensures Valid()
      ensures Preferences() == old(Preferences())
      ensures prefs == old(Preferences()) && m == old(Metadata(track, stats))
      ensures m.0.None? ==>
                sent.None? && !raised && Memo() == old(Memo()) && startTime == old(startTime) &&
                Link() == old(Link()) && Cache() == old(Cache())
      ensures m.0.Some? ==>
                var p := StatusPayload(prefs, title, artist, album, timeRemaining, username,
                                       artwork, m.0.value, m.1.value, now.hour, now.timestamp, h);
                startTime == Some(now.timestamp) && CacheHit(track) && Cache() == (Some(track), m.0, m.1) &&
                sent == (if old(presence) then Some(p) else None) &&
                (raised <==> old(presence) && !d.updateOk && old(IsConnected()) && !d.clearCloseOk) &&
                (old(presence) && !d.updateOk && old(IsConnected()) && !raised ==>
                   !IsConnected() && Memo() == (None, None, None) && connectionTime == None && presence) &&
                (!(old(presence) && !d.updateOk && old(IsConnected()) && !raised) ==>
                   Memo() == (Some(track), Some(artist), Some(m.1.value.artistCount)) &&
                   Link() == old(Link()))
    {
      var current := Preferences();
      prefs := current;
      m := Metadata(track, stats);
      var user, library, _ := GetMetadataWithCache(track, stats);
      if user.None? || library.None? {
        sent, raised := None, false;
        return;
      }
      assert m == (user, library);
      sent, raised := RecordAndPush(current, track, title, artist, album, timeRemaining, username, artwork,
                                    user.value, library.value, now, d, h);
    }

    /** `update_status`: skips a track already rendered; otherwise renders it (see
        `RenderTrack`). */
    method UpdateStatus(track: string, title: string, artist: string, album: string,
                        timeRemaining: nat, username: string, artwork: Option<string>,
                        stats: Stats, d: Discord, now: Now, h: Helpers)
      returns (sent: Option<Payload>, raised: bool)
      requires Valid()
      modifies this
      ensures Valid()
      ensures Preferences() == old(Preferences())
      ensures old(AlreadyRendered(track)) ==> sent.None? && !raised && unchanged(this)
      ensures !old(AlreadyRendered(track)) && old(Metadata(track, stats)).0.None? ==>
                sent.None? && !raised && Memo() == old(Memo()) && startTime == old(startTime) &&
                Link() == old(Link()) && Cache() == old(Cache())
      ensures !old(AlreadyRendered(track)) && old(Metadata(track, stats)).0.Some? ==>
                var (user, library) := old(Metadata(track, stats));
                var p := StatusPayload(old(Preferences()), title, artist, album, timeRemaining, username,
                                       artwork, user.value, library.value, now.hour, now.timestamp, h);
                startTime == Some(now.timestamp) && CacheHit(track) && Cache() == (Some(track), user, library) &&
                sent == (if old(presence) then Some(p) else None) &&
                (raised <==> old(presence) && !d.updateOk && old(IsConnected()) && !d.clearCloseOk) &&
                (old(presence) && !d.updateOk && old(IsConnected()) && !raised ==>
                   !IsConnected() && Memo() == (None, None, None) && connectionTime == None && presence) &&
                (!(old(presence) && !d.updateOk && old(IsConnected()) && !raised) ==>
                   Memo() == (Some(track), Some(artist), Some(library.value.artistCount)) &&
                   Link() == old(Link()))
      ensures sent == if old(presence) then old(Pending(track, title, artist, album, timeRemaining, username,
                                                        artwork, stats, now, h)) else None
      ensures raised ==> old(IsConnected()) && !d.updateOk && !d.clearCloseOk
      ensures var renders := old(AlreadyRendered(track)) || old(Metadata(track, stats)).0.Some?;
              renders && IsConnected() ==> AlreadyRendered(track)
      ensures var newRender := !old(AlreadyRendered(track)) && old(Metadata(track, stats)).0.Some?;
              newRender && IsConnected() ==> currentArtist == Some(artist)
    {
      if lastTrack == Some(track) && currentArtist.Some? {
        return None, false;
      }
      ghost var prefs, m;
      sent, raised, prefs, m := RenderTrack(track, title, artist, album, timeRemaining, username, artwork,
                                            stats, d, now, h);
    }
  }
}
