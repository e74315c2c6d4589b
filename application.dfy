/** The tray application's non-UI logic: the preference setters behind the menu, the
    two dynamic menu labels, the handling of a poll with and without a playing track,
    and one iteration of the background poll loop. */
module Application {
  import opened Python
  import opened Project
  import opened Messages
  import opened RpcAssets
  import opened Rpc
  import opened Tracking

  // ---------------------------------------------------------------- preferences

  /** The on/off display options the menu toggles by attribute name. */
  datatype DisplayOption = ShowSmallImage | ShowUsername | ShowScrobbles | ShowArtists | ShowLoved

  /** The value of an option's flag. */
  function Flag(p: Prefs, o: DisplayOption): bool
  {
    match o
    case ShowSmallImage => p.showSmallImage
    case ShowUsername => p.showUsername
    case ShowScrobbles => p.showScrobbles
    case ShowArtists => p.showArtists
    case ShowLoved => p.showLoved
  }

  /** The preferences after `setattr(rpc, option, not current)`. */
  function Toggled(p: Prefs, o: DisplayOption): (r: Prefs)
    ensures Flag(r, o) == !Flag(p, o)
    ensures forall o' :: o' != o ==> Flag(r, o') == Flag(p, o')
  {
    match o
    case ShowSmallImage => p.(showSmallImage := !p.showSmallImage)
    case ShowUsername => p.(showUsername := !p.showUsername)
    case ShowScrobbles => p.(showScrobbles := !p.showScrobbles)
    case ShowArtists => p.(showArtists := !p.showArtists)
    case ShowLoved => p.(showLoved := !p.showLoved)
  }

  /** Toggling leaves the settings that are not display options alone: the
      small-image source and the large-image settings keep their values. */
  lemma ToggleFlipsOnlyThat(p: Prefs, o: DisplayOption)
    ensures SourceFlags(Toggled(p, o)) == SourceFlags(p)
    ensures Toggled(p, o).showArtistScrobblesLarge == p.showArtistScrobblesLarge
    ensures Toggled(p, o).focusArtist == p.focusArtist
  {
  }

  /** Toggling the same option twice restores the preferences. */
  lemma ToggleTwiceRestores(p: Prefs, o: DisplayOption)
    ensures Toggled(Toggled(p, o), o) == p
  {
  }

  /** The three mutually exclusive small-image sources, in the order the setter visits them. */
  const SourceOptions: seq<string> := ["use_custom_profile_image", "use_default_icon", "use_lastfm_icon"]

  /** The three source flags, in the order of `SourceOptions`. */
  function SourceFlags(p: Prefs): seq<bool>
  {
    [p.useCustomProfileImage, p.useDefaultIcon, p.useLastfmIcon]
  }

  /** `setattr(rpc, SourceOptions[i], v)` on the preferences. */
  function WithSourceFlag(p: Prefs, i: nat, v: bool): Prefs
    requires i < 3
  {
    if i == 0 then p.(useCustomProfileImage := v)
    else if i == 1 then p.(useDefaultIcon := v)
    else p.(useLastfmIcon := v)
  }

  /** The preferences once the first `n` sources have been visited by the setter loop. */
  function SelectedUpTo(p: Prefs, option: string, n: nat): Prefs
    requires n <= 3
  {
    if n == 0 then p
    else WithSourceFlag(SelectedUpTo(p, option, n - 1), n - 1, SourceOptions[n - 1] == option)
  }

  /** The preferences with `option` as the small-image source and the other two off. */
  function Selected(p: Prefs, option: string): Prefs
  {
    p.(useCustomProfileImage := option == SourceOptions[0],
       useDefaultIcon := option == SourceOptions[1],
       useLastfmIcon := option == SourceOptions[2])
  }

  /** Visiting the three sources in turn gives the selection. */
  lemma SelectedAfterAllSources(p: Prefs, option: string)
    ensures SelectedUpTo(p, option, 3) == Selected(p, option)
  {
    var p1 := WithSourceFlag(p, 0, SourceOptions[0] == option);
    var p2 := WithSourceFlag(p1, 1, SourceOptions[1] == option);
    assert SelectedUpTo(p, option, 1) == p1;
    assert SelectedUpTo(p, option, 2) == p2;
  }

  /** Selecting one of the three names sets exactly that flag, which keeps the sources
      exclusive, and that source then supplies the small image. */
  lemma SelectionIsExclusive(p: Prefs, option: string, user: UserData)
    requires option in SourceOptions
    ensures forall i :: 0 <= i < 3 ==> (SourceFlags(Selected(p, option))[i] <==> SourceOptions[i] == option)
    ensures SourceExclusive(Selected(p, option))
    ensures p.showSmallImage ==>
              SmallImageAsset(Selected(p, option), user) ==
                Some(if option == SourceOptions[0] then user.avatarUrl
                     else if option == SourceOptions[1] then DefaultAvatarUrl else LastfmIconUrl)
  {
  }

  // ---------------------------------------------------------------- menu labels

  /** `%H` and `%M`: the number in decimal, zero-padded to two digits. */
  function TwoDigits(n: nat): (s: string)
    ensures n < 100 ==> |s| == 2
    ensures forall i :: 0 <= i < |s| ==> IsDigit(s[i])
  {
    if n < 10 then "0" + DecimalString(n) else DecimalString(n)
  }

  /** `strftime("%H:%M")` of a connection time. */
  function ClockText(t: Now): string
  {
    TwoDigits(t.hour) + ":" + TwoDigits(t.minute)
  }

  /** A clock reading of the day prints as five characters `HH:MM` from which the hour
      and the minute are read back. */
  lemma {:induction false} ClockRoundTrip(t: Now)
    requires t.hour < 24 && t.minute < 60
    ensures var s := ClockText(t);
            |s| == 5 && s[2] == ':' &&
            ParseDigits(s[..2]) == t.hour && ParseDigits(s[3..]) == t.minute
  {
    TwoDigitsRoundTrip(t.hour);
    TwoDigitsRoundTrip(t.minute);
    var s := ClockText(t);
    assert s[..2] == TwoDigits(t.hour);
    assert s[3..] == TwoDigits(t.minute);
  }

  lemma TwoDigitsRoundTrip(n: nat)
    requires n < 100
    ensures ParseDigits(TwoDigits(n)) == n
  {
    DecimalRoundTrip(n);
    if n < 10 {
      var s := TwoDigits(n);
      assert s[..1] == "0";
      assert ParseDigits("0") == 0 by {
        assert "0"[..0] == "";
      }
    }
  }

  /** `_get_dynamic_discord_status`: the detail message inside the status label. */
  function StatusDetail(connected: bool, connectionTime: Option<Now>): (m: Msg)
    ensures m.ConnectedWithTime? <==> connected && connectionTime.Some?
    ensures m.ConnectedWithTime? ==> m.time == ClockText(connectionTime.value)
    ensures m == Connected <==> connected && connectionTime.None?
    ensures m == Disconnected <==> !connected
  {
    if connected && connectionTime.Some? then ConnectedWithTime(ClockText(connectionTime.value))
    else if connected then Connected
    else Disconnected
  }

  /** `_get_dynamic_artist_stats`: the artist's play count once an artist is known
      (`"..."` while the count is missing); before that, "loading" while a track is
      shown and "idle" otherwise. */
  function ArtistStats(currentArtist: Option<string>, artistScrobbles: Option<nat>,
                       shownTrack: string, noTrack: string): (m: Msg)
    ensures m.ArtistScrobbles? <==> currentArtist.Some? && currentArtist.value != ""
    ensures m.ArtistScrobbles? ==>
              m.artist == currentArtist.value &&
              m.shown == if artistScrobbles.Some? then Known(artistScrobbles.value) else Pending
    ensures m == StatsLoading <==> !m.ArtistScrobbles? && shownTrack != noTrack
    ensures m == StatsIdle <==> !m.ArtistScrobbles? && shownTrack == noTrack
  {
    if currentArtist.Some? && currentArtist.value != "" then
      ArtistScrobbles(currentArtist.value, if artistScrobbles.Some? then Known(artistScrobbles.value) else Pending)
    else if shownTrack != noTrack then StatsLoading
    else StatsIdle
  }

  /** With a translation table that keeps messages apart, the status label alone tells
      whether the session is connected. */
  lemma StatusLabelShowsConnection(tr: Messenger, c1: bool, t1: Option<Now>, c2: bool, t2: Option<Now>)
    requires forall a, b :: tr(a) == tr(b) ==> a == b
    requires tr(DiscordStatus(tr(StatusDetail(c1, t1)))) == tr(DiscordStatus(tr(StatusDetail(c2, t2))))
    ensures c1 == c2
  {
    assert StatusDetail(c1, t1) == StatusDetail(c2, t2);
  }

  // ---------------------------------------------------------------- poll handling

  /** `str()` of a field that may be `None`. */
  function StrOf(s: Option<string>): string
  {
    if s.Some? then s.value else "None"
  }

  /** The `"artist - title"` text shown for a playing track. */
  function TrackDisplay(info: TrackInfo): string
  {
    StrOf(info.artist) + " - " + StrOf(info.title)
  }

  /** The tray tooltip: the application name over the shown track. */
  function TrayTitle(shown: string): string
  {
    AppName + "\n" + shown
  }

  /** Whether the session is connected once `enable()` has run. */
  function ConnectedAfterEnable(wasConnected: bool, hadPresence: bool, d: Discord): bool
  {
    wasConnected || ((hadPresence || d.presenceOk) && d.connect == ConnectOk)
  }

  /** Whether the tray `before` (track line, recorded connection flag, tooltip) is out of
      date: it shows another track line or another connection flag. */
  predicate TrayStale(before: (string, bool, string), shown: string, connected: bool)
  {
    before.0 != shown || before.1 != connected
  }

  /** The tray once `_handle_active_track` or `_handle_no_track` has brought it up to date
      with `shown` and `connected`: the tooltip is rewritten only when the tray was stale. */
  function TrayAfterShow(before: (string, bool, string), shown: string, connected: bool): (string, bool, string)
  {
    (shown, connected, if TrayStale(before, shown, connected) then TrayTitle(shown) else before.2)
  }

  /** The poll ended the iteration early: `now_playing` exited, or raised into the loop's handler. */
  predicate PollEscaped(polled: Option<Outcome<(Option<Track>, Option<TrackInfo>)>>)
  {
    polled.Some? && !polled.value.Returned?
  }

  /** A track without an album reaches the session as the text "None", which is not
      empty: with time remaining, the state line names it. */
  lemma MissingAlbumShownAsNone(p: Prefs, info: TrackInfo, username: string, user: UserData,
                                library: LibraryData, hour: nat, timestamp: int, h: Helpers)
    requires info.album.None? && info.timeRemaining > 0
    ensures StatusPayload(p, StrOf(info.title), StrOf(info.artist), StrOf(info.album), info.timeRemaining,
                          username, info.artwork, user, library, hour, timestamp, h).state ==
            StrOf(info.artist) + " - None"
  {
  }

  /** The render memo `_handle_active_track` leaves, from the memo and the metadata lookup
      before it: unchanged when the track is skipped as already rendered or has no metadata,
      forgotten when the push dropped the connection, else the track, its artist and the
      artist's play count. */
  ghost function MemoAfterActive(before: (Option<string>, Option<string>, Option<nat>), skipped: bool,
                                 m: (Option<UserData>, Option<LibraryData>), track: Track, info: TrackInfo,
                                 dropped: bool): (Option<string>, Option<string>, Option<nat>)
  {
    if skipped || m.0.None? || m.1.None? then before
    else if dropped then (None, None, None)
    else (Some(track.text), Some(StrOf(info.artist)), Some(m.1.value.artistCount))
  }

  /** The render of `_handle_active_track` lets an exception escape: the session is
      connected, the track is not skipped as already rendered, its metadata is at hand,
      `update()` fails and the forced disconnect's `clear()` or `close()` fails too. */
  predicate PushEscapes(connected: bool, skipped: bool, m: (Option<UserData>, Option<LibraryData>), d: Discord)
  {
    connected && !skipped && m.0.Some? && !d.updateOk && !d.clearCloseOk
  }

  /** The connection part of the session, `(client built, enabled, disabled, connection
      time)`, after `enable()`: unchanged when enabled; otherwise the client is built if
      missing, and a successful connect enables the session and stamps the time. */
  ghost function LinkAfterEnable(before: (bool, bool, bool, Option<Now>), d: Discord, now: Now)
    : (bool, bool, bool, Option<Now>)
  {
    var (client, enabled, disabled, time) := before;
    if enabled then before
    else if (client || d.presenceOk) && d.connect == ConnectOk then (true, true, false, Some(now))
    else (client || d.presenceOk, enabled, disabled, time)
  }

  /** The connection part after `disable()`: a connected session whose `clear()` and
      `close()` succeed keeps its client, becomes disabled and forgets the time; any other
      session is unchanged. */
  ghost function LinkAfterDisable(before: (bool, bool, bool, Option<Now>), clearCloseOk: bool)
    : (bool, bool, bool, Option<Now>)
  {
    if before.1 && clearCloseOk then (before.0, false, true, None) else before
  }

  /** The connection part after `update_status`: only a render that reaches a client and
      whose `update()` fails touches it, through the forced disconnect. */
  ghost function LinkAfterRender(before: (bool, bool, bool, Option<Now>), skipped: bool,
                                 m: (Option<UserData>, Option<LibraryData>), d: Discord)
    : (bool, bool, bool, Option<Now>)
  {
    if !skipped && m.0.Some? && before.0 && !d.updateOk then LinkAfterDisable(before, d.clearCloseOk) else before
  }

  /** The metadata cache after `update_status`: a render holds the track and its two
      records; a skipped or aborted one leaves the cache alone. */
  ghost function CacheAfterRender(before: (Option<string>, Option<UserData>, Option<LibraryData>), skipped: bool,
                                  m: (Option<UserData>, Option<LibraryData>), key: string)
    : (Option<string>, Option<UserData>, Option<LibraryData>)
  {
    if !skipped && m.0.Some? then (Some(key), m.0, m.1) else before
  }

  /** The render start time after `update_status`: stamped by a render, kept otherwise. */
  ghost function StartAfterRender(before: Option<int>, skipped: bool,
                                  m: (Option<UserData>, Option<LibraryData>), timestamp: int): Option<int>
  {
    if !skipped && m.0.Some? then Some(timestamp) else before
  }

  /** How one loop iteration ends: a wait of so many seconds before the next, or the
      end of the loop with an exit status. */
  datatype Step = Wait(seconds: nat) | Stopped(status: int)

  class App {
    const rpc: DiscordRpc
    const username: string
    const h: Helpers
    var currentTrackName: string
    var rpcConnected: bool
    var updateEvent: bool
    var cachedTrackData: Option<(Track, TrackInfo)>
    var trayTitle: string
    /** How many times the tray menu has been built. */
    var menuBuilds: nat

    ghost predicate Valid()
      reads this, rpc
    {
      rpc.Valid()
    }

    /** What the tray shows: the track line, the connection flag it last recorded and the tooltip. */
    ghost function Tray(): (string, bool, string)
      reads this
    {
      (currentTrackName, rpcConnected, trayTitle)
    }

    constructor (username: string, h: Helpers)
      ensures Valid() && fresh(rpc) && !rpc.IsConnected() && rpc.Preferences() == InitialPrefs
      ensures this.username == username && this.h == h
      ensures Tray() == (h.messenger(NoTrack), false, AppName)
      ensures !updateEvent && cachedTrackData == None && menuBuilds == 1
    {
      rpc := new DiscordRpc();
      this.username := username;
      this.h := h;
      currentTrackName := h.messenger(NoTrack);
      rpcConnected := false;
      updateEvent := false;
      cachedTrackData := None;
      trayTitle := AppName;
      menuBuilds := 1;
    }

    /** The status menu label: "connected at HH:MM" when connected with a connection
        time, "connected" without one, "disconnected" otherwise. */
    function DiscordStatusLabel(): (text: string)
      reads this, rpc
      ensures rpc.IsConnected() && rpc.connectionTime.Some? ==>
                text == h.messenger(DiscordStatus(h.messenger(ConnectedWithTime(ClockText(rpc.connectionTime.value)))))
      ensures rpc.IsConnected() && rpc.connectionTime.None? ==>
                text == h.messenger(DiscordStatus(h.messenger(Connected)))
      ensures !rpc.IsConnected() ==> text == h.messenger(DiscordStatus(h.messenger(Disconnected)))
    {
      h.messenger(DiscordStatus(h.messenger(StatusDetail(rpc.IsConnected(), rpc.connectionTime))))
    }

    /** The artist-stats menu label: the artist with its play count (or "...") once an
        artist is known; otherwise "loading" while a track is shown and "idle" when none is. */
    function ArtistStatsLabel(): (text: string)
      reads this, rpc
      ensures rpc.currentArtist.Some? && rpc.currentArtist.value != "" ==>
                text == h.messenger(ArtistScrobbles(rpc.currentArtist.value,
                  if rpc.artistScrobbles.Some? then Known(rpc.artistScrobbles.value) else Pending))
      ensures !(rpc.currentArtist.Some? && rpc.currentArtist.value != "") ==>
                text == h.messenger(if currentTrackName != h.messenger(NoTrack) then StatsLoading else StatsIdle)
    {
      h.messenger(ArtistStats(rpc.currentArtist, rpc.artistScrobbles, currentTrackName, h.messenger(NoTrack)))
    }

    /** The payload the render of a polled track builds from the current session state,
        with the `str()` forms of the track's fields. */
    function PendingFor(track: Track, info: TrackInfo, stats: Stats, now: Now): Option<Payload>
      reads rpc
    {
      rpc.Pending(track.text, StrOf(info.title), StrOf(info.artist), StrOf(info.album), info.timeRemaining,
                  username, info.artwork, stats, now, h)
    }

    /** The common tail of every effective preference change: the render memo's track
        is forgotten, the menu is rebuilt and the loop is woken; nothing else changes
        apart from the preferences. */
    twostate predicate RerenderRequested()
      reads this, rpc
    {
      rpc.lastTrack == None && updateEvent && menuBuilds == old(menuBuilds) + 1 &&
      rpc.currentArtist == old(rpc.currentArtist) && rpc.artistScrobbles == old(rpc.artistScrobbles) &&
      rpc.startTime == old(rpc.startTime) && rpc.Link() == old(rpc.Link()) && rpc.Cache() == old(rpc.Cache()) &&
      Tray() == old(Tray()) && cachedTrackData == old(cachedTrackData)
    }

    /** `toggle_display_option`: flips one flag and asks for a re-render. */
    method ToggleDisplayOption(o: DisplayOption)
      requires Valid()
      modifies this, rpc
      ensures Valid()
      ensures rpc.Preferences() == Toggled(old(rpc.Preferences()), o)
      ensures RerenderRequested()
      ensures forall t :: !rpc.AlreadyRendered(t)
    {
      rpc.SetPreferences(Toggled(rpc.Preferences(), o));
      rpc.ForgetLastTrack();
      menuBuilds := menuBuilds + 1;
      updateEvent := true;
    }

    /** `set_small_image_option`: an unknown name is ignored; otherwise each of the
        three source flags is set to whether it is the chosen one, and a re-render is
        asked for. */
    method SetSmallImageOption(option: string)
      requires Valid()
      modifies this, rpc
      ensures Valid()
      ensures option !in SourceOptions ==> unchanged(this, rpc)
      ensures option in SourceOptions ==>
                rpc.Preferences() == Selected(old(rpc.Preferences()), option) && RerenderRequested()
    {
      if option !in SourceOptions {
        return;
      }
      for i := 0 to |SourceOptions|
        invariant rpc.Preferences() == SelectedUpTo(old(rpc.Preferences()), option, i)
        invariant rpc.Memo() == old(rpc.Memo()) && rpc.startTime == old(rpc.startTime)
        invariant rpc.Link() == old(rpc.Link()) && rpc.Cache() == old(rpc.Cache())
        invariant unchanged(this)
      {
        rpc.SetPreferences(WithSourceFlag(rpc.Preferences(), i, SourceOptions[i] == option));
      }
      SelectedAfterAllSources(old(rpc.Preferences()), option);
      SelectionIsExclusive(old(rpc.Preferences()), option, UserData("", "", 0, 0, 0));
      rpc.ForgetLastTrack();
      menuBuilds := menuBuilds + 1;
      updateEvent := true;
    }

    /** `set_large_image_option`: choosing the current mode does nothing at all;
        otherwise the mode changes and a re-render is asked for. */
    method SetLargeImageOption(showScrobbles: bool)
      requires Valid()
      modifies this, rpc
      ensures Valid()
      ensures old(rpc.Preferences().showArtistScrobblesLarge) == showScrobbles ==> unchanged(this, rpc)
      ensures old(rpc.Preferences().showArtistScrobblesLarge) != showScrobbles ==>
                rpc.Preferences() == old(rpc.Preferences()).(showArtistScrobblesLarge := showScrobbles) &&
                RerenderRequested()
    {
      if rpc.Preferences().showArtistScrobblesLarge == showScrobbles {
        return;
      }
      rpc.SetPreferences(rpc.Preferences().(showArtistScrobblesLarge := showScrobbles));
      rpc.ForgetLastTrack();
      menuBuilds := menuBuilds + 1;
      updateEvent := true;
    }

    /** The first step of `_handle_active_track`: connect, then update the tray when
        the shown track or the connection changed. */
    method ShowPlaying(info: TrackInfo, d: Discord, now: Now) returns (changed: bool)
      requires Valid()
      modifies this, rpc
      ensures Valid()
      ensures currentTrackName == h.messenger(NowPlaying(TrackDisplay(info)))
      ensures rpcConnected == rpc.IsConnected() == ConnectedAfterEnable(old(rpc.IsConnected()), old(rpc.presence), d)
      ensures rpc.presence == (old(rpc.presence) || d.presenceOk)
      ensures rpc.Link() == LinkAfterEnable(old(rpc.Link()), d, now) && rpc.startTime == old(rpc.startTime)
      ensures changed == (old(currentTrackName) != currentTrackName || old(rpcConnected) != rpcConnected)
      ensures trayTitle == if changed then TrayTitle(currentTrackName) else old(trayTitle)
      ensures rpc.Memo() == old(rpc.Memo()) && rpc.Cache() == old(rpc.Cache())
      ensures rpc.Preferences() == old(rpc.Preferences())
      ensures menuBuilds == old(menuBuilds) && cachedTrackData == old(cachedTrackData) &&
              updateEvent == old(updateEvent)
    {
      var shown := h.messenger(NowPlaying(TrackDisplay(info)));
      rpc.Enable(d, now);
      changed := currentTrackName != shown || rpcConnected != rpc.IsConnected();
      if changed {
        currentTrackName := shown;
        rpcConnected := rpc.IsConnected();
        trayTitle := TrayTitle(shown);
      }
    }

    /** The second step of `_handle_active_track`: `update_status` with the `str()` forms
        of the track's fields. The payload is the pending render when there is a `Presence`
        object; the memo is the one the render leaves. */
    method RenderPolled(track: Track, info: TrackInfo, d: Discord, now: Now, stats: Stats)
      returns (sent: Option<Payload>, raised: bool)
      requires Valid()
      modifies rpc
      ensures Valid()
      ensures sent == if old(rpc.presence) then old(PendingFor(track, info, stats, now)) else None
      ensures rpc.Memo() == MemoAfterActive(old(rpc.Memo()), old(rpc.AlreadyRendered(track.text)),
                                            old(rpc.Metadata(track.text, stats)), track, info,
                                            old(rpc.IsConnected()) && !d.updateOk && d.clearCloseOk)
      ensures raised <==> PushEscapes(old(rpc.IsConnected()), old(rpc.AlreadyRendered(track.text)),
                                      old(rpc.Metadata(track.text, stats)), d)
      ensures var skipped, m := old(rpc.AlreadyRendered(track.text)), old(rpc.Metadata(track.text, stats));
              rpc.Link() == LinkAfterRender(old(rpc.Link()), skipped, m, d) &&
              rpc.Cache() == CacheAfterRender(old(rpc.Cache()), skipped, m, track.text) &&
              rpc.startTime == StartAfterRender(old(rpc.startTime), skipped, m, now.timestamp)
      ensures var renders := old(rpc.AlreadyRendered(track.text)) || old(rpc.Metadata(track.text, stats)).0.Some?;
              renders && rpc.IsConnected() ==> rpc.AlreadyRendered(track.text)
      ensures rpc.Preferences() == old(rpc.Preferences())
    {
      sent, raised := rpc.UpdateStatus(track.text, StrOf(info.title), StrOf(info.artist), StrOf(info.album),
                                       info.timeRemaining, username, info.artwork, stats, d, now, h);
    }

    /** `_handle_active_track`: connects first, updates the tray when the shown track
        or the connection changed, then renders the track with the `str()` forms of
        its fields; the menu is rebuilt after a change unless the render raised. */
    method HandleActiveTrack(track: Track, info: TrackInfo, d: Discord, now: Now, stats: Stats)
      returns (sent: Option<Payload>, raised: bool)
      requires Valid()
      modifies this, rpc
      ensures Valid()
      ensures currentTrackName == h.messenger(NowPlaying(TrackDisplay(info)))
      ensures rpcConnected == ConnectedAfterEnable(old(rpc.IsConnected()), old(rpc.presence), d)
      ensures var changed := old(currentTrackName) != currentTrackName || old(rpcConnected) != rpcConnected;
              trayTitle == (if changed then TrayTitle(currentTrackName) else old(trayTitle)) &&
              menuBuilds == old(menuBuilds) + (if changed && !raised then 1 else 0)
      ensures raised <==> PushEscapes(rpcConnected, old(rpc.AlreadyRendered(track.text)),
                                      old(rpc.Metadata(track.text, stats)), d)
      ensures var skipped, m := old(rpc.AlreadyRendered(track.text)), old(rpc.Metadata(track.text, stats));
              rpc.Link() == LinkAfterRender(LinkAfterEnable(old(rpc.Link()), d, now), skipped, m, d) &&
              rpc.Cache() == CacheAfterRender(old(rpc.Cache()), skipped, m, track.text) &&
              rpc.startTime == StartAfterRender(old(rpc.startTime), skipped, m, now.timestamp)
      ensures sent == if old(rpc.presence) || d.presenceOk then old(PendingFor(track, info, stats, now)) else None
      ensures rpc.Memo() == MemoAfterActive(old(rpc.Memo()), old(rpc.AlreadyRendered(track.text)),
                                            old(rpc.Metadata(track.text, stats)), track, info,
                                            rpcConnected && !d.updateOk && d.clearCloseOk)
      ensures var renders := old(rpc.AlreadyRendered(track.text)) || old(rpc.Metadata(track.text, stats)).0.Some?;
              renders && rpc.IsConnected() ==> rpc.AlreadyRendered(track.text)
      ensures rpc.Preferences() == old(rpc.Preferences())
      ensures cachedTrackData == old(cachedTrackData) && updateEvent == old(updateEvent)
    {
      ghost var pending := PendingFor(track, info, stats, now);
      ghost var memo, skipped, m := rpc.Memo(), rpc.AlreadyRendered(track.text), rpc.Metadata(track.text, stats);
      var changed := ShowPlaying(info, d, now);
      assert PendingFor(track, info, stats, now) == pending;
      assert rpc.Memo() == memo && rpc.AlreadyRendered(track.text) == skipped && rpc.Metadata(track.text, stats) == m;
      sent, raised := RenderPolled(track, info, d, now, stats);
      if raised {
        return;
      }
      if changed {
        menuBuilds := menuBuilds + 1;
      }
    }

    /** `_handle_no_track`: updates the tray when it still shows a track or a stale
        connection flag, recording the flag as it is before the disconnect, then
        disconnects. */
    method HandleNoTrack(clearCloseOk: bool) returns (raised: bool)
      requires Valid()
      modifies this, rpc
      ensures Valid()
      ensures currentTrackName == h.messenger(NoTrack)
      ensures rpcConnected == old(rpc.IsConnected())
      ensures trayTitle == if old(currentTrackName) != h.messenger(NoTrack) || old(rpcConnected) != old(rpc.IsConnected())
                           then TrayTitle(h.messenger(NoTrack)) else old(trayTitle)
      ensures raised <==> old(rpc.IsConnected()) && !clearCloseOk
      ensures rpc.IsConnected() == raised
      ensures rpc.Memo() == if old(rpc.IsConnected()) && clearCloseOk then (None, None, None) else old(rpc.Memo())
      ensures rpc.Link() == LinkAfterDisable(old(rpc.Link()), clearCloseOk) && rpc.startTime == old(rpc.startTime)
      ensures rpc.Preferences() == old(rpc.Preferences()) && rpc.Cache() == old(rpc.Cache())
      ensures menuBuilds == old(menuBuilds) && cachedTrackData == old(cachedTrackData) &&
              updateEvent == old(updateEvent)
    {
      if currentTrackName != h.messenger(NoTrack) || rpcConnected != rpc.IsConnected() {
        currentTrackName := h.messenger(NoTrack);
        rpcConnected := rpc.IsConnected();
        trayTitle := TrayTitle(currentTrackName);
      }
      raised := rpc.Disable(clearCloseOk);
    }

    /** The rest of a `run_rpc` iteration once the poll is done (`polled` is the result of
        `now_playing`, none when the cached data was reused). An exit ends the loop and an
        exception reaches the loop's handler, which waits `UPDATE_INTERVAL`; otherwise with
        data the track is handled and the wait is `TRACK_CHECK_INTERVAL` (the shorter
        `UPDATE_INTERVAL` when the update raised); without data the session is
        disconnected, the cached data is forgotten unless the disconnect raised, and the
        wait is `UPDATE_INTERVAL`. */
    method HandlePolled(polled: Option<Outcome<(Option<Track>, Option<TrackInfo>)>>, track: Option<Track>,
                        data: Option<TrackInfo>, d: Discord, now: Now, stats: Stats)
      returns (step: Step, sent: Option<Payload>)
      requires Valid() && (data.Some? ==> track.Some?) && (PollEscaped(polled) ==> data.None?)
      modifies this, rpc
      ensures Valid() && updateEvent == old(updateEvent)
      ensures PollEscaped(polled) ==>
                sent.None? && step == (if polled.value.Exited? then Stopped(polled.value.status) else Wait(UpdateInterval)) &&
                unchanged(this, rpc)
      ensures data.Some? ==>
                cachedTrackData == old(cachedTrackData) &&
                currentTrackName == h.messenger(NowPlaying(TrackDisplay(data.value))) &&
                step == (if PushEscapes(ConnectedAfterEnable(old(rpc.IsConnected()), old(rpc.presence), d),
                                        old(rpc.AlreadyRendered(track.value.text)),
                                        old(rpc.Metadata(track.value.text, stats)), d)
                         then Wait(UpdateInterval) else Wait(TrackCheckInterval)) &&
                sent == (if old(rpc.presence) || d.presenceOk then old(PendingFor(track.value, data.value, stats, now))
                         else None) &&
                rpc.Memo() == MemoAfterActive(old(rpc.Memo()), old(rpc.AlreadyRendered(track.value.text)),
                                              old(rpc.Metadata(track.value.text, stats)), track.value, data.value,
                                              ConnectedAfterEnable(old(rpc.IsConnected()), old(rpc.presence), d) &&
                                              !d.updateOk && d.clearCloseOk)
      ensures data.Some? ==>
                var skipped, m := old(rpc.AlreadyRendered(track.value.text)), old(rpc.Metadata(track.value.text, stats));
                rpc.Link() == LinkAfterRender(LinkAfterEnable(old(rpc.Link()), d, now), skipped, m, d) &&
                rpc.Cache() == CacheAfterRender(old(rpc.Cache()), skipped, m, track.value.text) &&
                rpc.startTime == StartAfterRender(old(rpc.startTime), skipped, m, now.timestamp)
      ensures data.Some? ==>
                var shown := h.messenger(NowPlaying(TrackDisplay(data.value)));
                var connected := ConnectedAfterEnable(old(rpc.IsConnected()), old(rpc.presence), d);
                Tray() == TrayAfterShow(old(Tray()), shown, connected) &&
                menuBuilds == old(menuBuilds) +
                  (if TrayStale(old(Tray()), shown, connected) && step == Wait(TrackCheckInterval) then 1 else 0)
      ensures data.None? && !PollEscaped(polled) ==>
                rpc.Link() == LinkAfterDisable(old(rpc.Link()), d.clearCloseOk) &&
                rpc.Cache() == old(rpc.Cache()) && rpc.startTime == old(rpc.startTime)
      ensures data.None? && !PollEscaped(polled) ==>
                Tray() == TrayAfterShow(old(Tray()), h.messenger(NoTrack), old(rpc.IsConnected())) &&
                menuBuilds == old(menuBuilds)
      ensures rpc.Preferences() == old(rpc.Preferences())
      ensures data.None? && !PollEscaped(polled) ==>
                sent.None? && step == Wait(UpdateInterval) && currentTrackName == h.messenger(NoTrack) &&
                rpc.IsConnected() == (old(rpc.IsConnected()) && !d.clearCloseOk) &&
                cachedTrackData == (if old(rpc.IsConnected()) && !d.clearCloseOk then old(cachedTrackData) else None) &&
                rpc.Memo() == if old(rpc.IsConnected()) && d.clearCloseOk then (None, None, None) else old(rpc.Memo())
    {
      if PollEscaped(polled) {
        return (if polled.value.Exited? then Stopped(polled.value.status) else Wait(UpdateInterval)), None;
      }
      if data.Some? {
        var raised;
        sent, raised := HandleActiveTrack(track.value, data.value, d, now, stats);
        step := if raised then Wait(UpdateInterval) else Wait(TrackCheckInterval);
      } else {
        var raised := HandleNoTrack(d.clearCloseOk);
        if !raised {
          cachedTrackData := None;
        }
        step := Wait(UpdateInterval);
        sent := None;
      }
    }

    /** The first half of a `run_rpc` iteration: the event is read and cleared; a forced
        iteration with cached data takes the track and data from the cache, otherwise
        `now_playing` is polled (`polled` is its result) and data it returns is cached. */
    method NextTrack(user: User, current: CurrentReply, details: DetailsReply)
      returns (polled: Option<Outcome<(Option<Track>, Option<TrackInfo>)>>, track: Option<Track>,
               data: Option<TrackInfo>)
      requires user.Valid()
      modifies this`updateEvent, this`cachedTrackData, user
      ensures user.Valid() && !updateEvent
      ensures data.Some? ==> track.Some?
      ensures polled.None? <==> old(updateEvent) && old(cachedTrackData).Some?
      ensures polled.None? ==>
                unchanged(user) && cachedTrackData == old(cachedTrackData) &&
                track == Some(old(cachedTrackData).value.0) && data == Some(old(cachedTrackData).value.1)
      ensures polled.Some? ==>
                polled.value == PollResult(old(user.lastTrack), old(user.lastTrackInfo), current, details) &&
                (user.lastTrack, user.lastTrackInfo) ==
                  MemoryAfterPoll(old(user.lastTrack), old(user.lastTrackInfo), current, details)
      ensures polled.Some? && polled.value.Returned? ==>
                (track, data) == polled.value.value &&
                cachedTrackData == if data.Some? then Some((track.value, data.value)) else old(cachedTrackData)
      ensures polled.Some? && !polled.value.Returned? ==>
                track.None? && data.None? && cachedTrackData == old(cachedTrackData)
    {
      var forced := updateEvent;
      updateEvent := false;
      if forced && cachedTrackData.Some? {
        polled := None;
        track, data := Some(cachedTrackData.value.0), Some(cachedTrackData.value.1);
      } else {
        var got := user.NowPlaying(current, details);
        polled := Some(got);
        track, data := None, None;
        if got.Returned? {
          track, data := got.value.0, got.value.1;
          if data.Some? {
            cachedTrackData := Some((track.value, data.value));
          }
        }
      }
    }

    /** One iteration of `run_rpc`. The event is read and cleared; a forced iteration
        with cached data reuses it, otherwise `now_playing` is polled (`polled` is its
        result) and data is cached when present; `track` and `data` are what the
        iteration then handles. A track is handled and waits
        `TRACK_CHECK_INTERVAL`; no track disconnects, forgets the cached data and waits
        `UPDATE_INTERVAL`; an exception waits `UPDATE_INTERVAL`; an exit ends the loop. */
    method RunIteration(user: User, current: CurrentReply, details: DetailsReply,
                        d: Discord, now: Now, stats: Stats)
      returns (step: Step, sent: Option<Payload>, ghost polled: Option<Outcome<(Option<Track>, Option<TrackInfo>)>>,
               ghost track: Option<Track>, ghost data: Option<TrackInfo>)
      requires Valid() && user.Valid()
      modifies this, rpc, user
      ensures Valid() && user.Valid()
      ensures !updateEvent
      ensures polled.None? <==> old(updateEvent) && old(cachedTrackData).Some?
      ensures polled.Some? ==>
                polled.value == PollResult(old(user.lastTrack), old(user.lastTrackInfo), current, details) &&
                (user.lastTrack, user.lastTrackInfo) ==
                  MemoryAfterPoll(old(user.lastTrack), old(user.lastTrackInfo), current, details)
      ensures polled.None? ==>
                unchanged(user) && cachedTrackData == old(cachedTrackData) &&
                track == Some(old(cachedTrackData).value.0) && data == Some(old(cachedTrackData).value.1)
      ensures polled.Some? && polled.value.Returned? ==> (track, data) == polled.value.value
      ensures polled.Some? && polled.value.Returned? && data.Some? ==>
                cachedTrackData == Some((track.value, data.value))
      ensures PollEscaped(polled) ==>
                data.None? && sent.None? &&
                step == (if polled.value.Exited? then Stopped(polled.value.status) else Wait(UpdateInterval)) &&
                cachedTrackData == old(cachedTrackData) && Tray() == old(Tray()) && menuBuilds == old(menuBuilds) &&
                unchanged(rpc)
      ensures data.Some? ==>
                track.Some? &&
                currentTrackName == h.messenger(NowPlaying(TrackDisplay(data.value))) &&
                step == (if PushEscapes(ConnectedAfterEnable(old(rpc.IsConnected()), old(rpc.presence), d),
                                        old(rpc.AlreadyRendered(track.value.text)),
                                        old(rpc.Metadata(track.value.text, stats)), d)
                         then Wait(UpdateInterval) else Wait(TrackCheckInterval)) &&
                sent == (if old(rpc.presence) || d.presenceOk then old(PendingFor(track.value, data.value, stats, now))
                         else None) &&
                rpc.Memo() == MemoAfterActive(old(rpc.Memo()), old(rpc.AlreadyRendered(track.value.text)),
                                              old(rpc.Metadata(track.value.text, stats)), track.value, data.value,
                                              ConnectedAfterEnable(old(rpc.IsConnected()), old(rpc.presence), d) &&
                                              !d.updateOk && d.clearCloseOk)
      ensures data.Some? ==>
                var skipped, m := old(rpc.AlreadyRendered(track.value.text)), old(rpc.Metadata(track.value.text, stats));
                rpc.Link() == LinkAfterRender(LinkAfterEnable(old(rpc.Link()), d, now), skipped, m, d) &&
                rpc.Cache() == CacheAfterRender(old(rpc.Cache()), skipped, m, track.value.text) &&
                rpc.startTime == StartAfterRender(old(rpc.startTime), skipped, m, now.timestamp)
      ensures data.Some? ==>
                var shown := h.messenger(NowPlaying(TrackDisplay(data.value)));
                var connected := ConnectedAfterEnable(old(rpc.IsConnected()), old(rpc.presence), d);
                Tray() == TrayAfterShow(old(Tray()), shown, connected) &&
                menuBuilds == old(menuBuilds) +
                  (if TrayStale(old(Tray()), shown, connected) && step == Wait(TrackCheckInterval) then 1 else 0)
      ensures data.None? && !PollEscaped(polled) ==>
                sent.None? && step == Wait(UpdateInterval) && currentTrackName == h.messenger(NoTrack) &&
                rpc.IsConnected() == (old(rpc.IsConnected()) && !d.clearCloseOk) &&
                cachedTrackData == (if old(rpc.IsConnected()) && !d.clearCloseOk then old(cachedTrackData) else None) &&
                rpc.Memo() == (if old(rpc.IsConnected()) && d.clearCloseOk then (None, None, None) else old(rpc.Memo()))
      ensures data.None? && !PollEscaped(polled) ==>
                rpc.Link() == LinkAfterDisable(old(rpc.Link()), d.clearCloseOk) &&
                rpc.Cache() == old(rpc.Cache()) && rpc.startTime == old(rpc.startTime)
      ensures data.None? && !PollEscaped(polled) ==>
                Tray() == TrayAfterShow(old(Tray()), h.messenger(NoTrack), old(rpc.IsConnected())) &&
                menuBuilds == old(menuBuilds)
      ensures rpc.Preferences() == old(rpc.Preferences())
    {
      var got, nextTrack, nextData := NextTrack(user, current, details);
      polled, track, data := got, nextTrack, nextData;
      assert Tray() == old(Tray()) && menuBuilds == old(menuBuilds) && rpc.Link() == old(rpc.Link()) &&
             rpc.Cache() == old(rpc.Cache()) && rpc.Memo() == old(rpc.Memo()) && rpc.startTime == old(rpc.startTime) &&
             rpc.Preferences() == old(rpc.Preferences()) && rpc.presence == old(rpc.presence) &&
             rpc.IsConnected() == old(rpc.IsConnected());
      if data.Some? {
        assert rpc.AlreadyRendered(track.value.text) == old(rpc.AlreadyRendered(track.value.text)) &&
               rpc.Metadata(track.value.text, stats) == old(rpc.Metadata(track.value.text, stats)) &&
               PendingFor(track.value, data.value, stats, now) == old(PendingFor(track.value, data.value, stats, now));
      }
      step, sent := HandlePolled(got, nextTrack, nextData, d, now, stats);
    }
  }
}
