/** What the presence session pushes: the preference flags it reads, the records
    the profile and library helpers return, the choice of images and hover lines,
    the link buttons, the remaining-time truncation and the assembled payload. */
module RpcAssets {
  import opened Python
  import opened Project
  import opened Messages
  import opened RpcText

  /** The display preferences held by the session and changed from the tray menu. */
  datatype Prefs = Prefs(
    showScrobbles: bool,
    showArtists: bool,
    showLoved: bool,
    showSmallImage: bool,
    useCustomProfileImage: bool,
    useDefaultIcon: bool,
    useLastfmIcon: bool,
    showUsername: bool,
    showArtistScrobblesLarge: bool,
    focusArtist: bool)

  const InitialPrefs: Prefs := Prefs(true, true, true, true, true, false, false, true, true, true)

  /** Exactly one small-image source is selected. */
  predicate SourceExclusive(p: Prefs)
  {
    if p.useCustomProfileImage then !p.useDefaultIcon && !p.useLastfmIcon
    else p.useDefaultIcon != p.useLastfmIcon
  }

  /** A profile record (`get_user_data`): display name, avatar and the header counts
      (scrobbles, artists, loved tracks). */
  datatype UserData = UserData(displayName: string, avatarUrl: string,
                               scrobbles: nat, artists: nat, lovedTracks: nat)

  /** A library record (`get_library_data`): plays of this artist and of this track. */
  datatype LibraryData = LibraryData(artistCount: nat, trackCount: nat)

  /** The translation table and the URL encoder the session calls. */
  datatype Helpers = Helpers(messenger: Messenger, urlEncode: string -> string)

  /** A hover line before translation: literal text or a translated message. */
  datatype LineText = Plain(s: string) | Translated(m: Msg)
  datatype Entry = Entry(key: Key, text: LineText)

  /** The keys of the entries, in order. */
  function Keys(es: seq<Entry>): (ks: seq<Key>)
    ensures |ks| == |es|
  {
    if |es| == 0 then [] else Keys(es[..|es| - 1]) + [es[|es| - 1].key]
  }

  /** The entries with their texts rendered through the translation table. */
  function Render(es: seq<Entry>, tr: Messenger): (ls: seq<Line>)
    ensures |ls| == |es|
  {
    if |es| == 0 then []
    else
      var e := es[|es| - 1];
      Render(es[..|es| - 1], tr) +
      [Line(e.key, match e.text case Plain(s) => s case Translated(m) => tr(m))]
  }

  // ---------------------------------------------------------------- large image

  /** The hour test of the artwork fallback (true from 18:00 to 08:59). */
  predicate IsDay(hour: nat)
  {
    hour >= 18 || hour < 9
  }

  /** Artwork fallback and large-image lines: the cover to show, then the `theme`
      line (only when the track has no artwork) and the familiarity line. */
  function ArtworkStatus(artwork: Option<string>, artistCount: nat, trackCount: nat,
                         showLarge: bool, hour: nat): (r: (string, seq<Entry>))
    ensures artwork.Some? ==> r.0 == artwork.value
    ensures artwork.None? ==> r.0 == if IsDay(hour) then DayModeCover else NightModeCover
    ensures |r.1| == (if artwork.None? then 1 else 0) + (if artistCount == 0 || showLarge then 1 else 0)
  {
    var cover := if artwork.Some? then artwork.value
                 else if IsDay(hour) then DayModeCover else NightModeCover;
    var theme := if artwork.Some? then []
                 else [Entry(ThemeKey, Translated(if IsDay(hour) then NightMode else DayMode))];
    var familiarity :=
      if artistCount != 0 then
        if showLarge then
          [Entry(ArtistScrobblesKey, Translated(
             if trackCount != 0 then ScrobblesTotal(artistCount, trackCount) else Scrobbles(artistCount)))]
        else []
      else [Entry(FirstTimeKey, Translated(FirstTime))];
    (cover, theme + familiarity)
  }

  /** The large-image asset and hover text; an empty text falls back to the album,
      or to the listening-now message when the album is empty. */
  function LargeImageDetails(artwork: Option<string>, album: string, library: LibraryData,
                             p: Prefs, hour: nat, tr: Messenger): (string, string)
  {
    var (cover, entries) := ArtworkStatus(artwork, library.artistCount, library.trackCount,
                                          p.showArtistScrobblesLarge, hour);
    var text := ImageText(Render(entries, tr), RpcLineLimit, RpcXChar);
    (cover, if text == "" || Strip(text) == "" then (if album != "" then album else tr(ListeningNow)) else text)
  }

  /** Without artwork the cover is one of the two fixed images, chosen by the hour alone,
      and the `theme` line names the opposite mode: the day cover goes with the
      night-mode message. */
  lemma FallbackCoverFollowsHour(artistCount: nat, trackCount: nat, showLarge: bool, hour: nat)
    ensures var (cover, es) := ArtworkStatus(None, artistCount, trackCount, showLarge, hour);
            (cover == DayModeCover <==> IsDay(hour)) &&
            (cover == NightModeCover <==> !IsDay(hour)) &&
            |es| >= 1 && es[0].key == ThemeKey &&
            (es[0].text == Translated(NightMode) <==> cover == DayModeCover)
  {
  }

  /** Explicit artwork is used unchanged and brings no `theme` line. */
  lemma ExplicitArtworkKept(artwork: string, artistCount: nat, trackCount: nat, showLarge: bool, hour: nat)
    ensures var (cover, es) := ArtworkStatus(Some(artwork), artistCount, trackCount, showLarge, hour);
            cover == artwork && ThemeKey !in Keys(es)
  {
  }

  /** A zero artist count always yields `first_time` and never `artist_scrobbles`;
      `artist_scrobbles` appears exactly when the artist was played before and the
      large-image preference asks for it. */
  lemma FamiliarityLine(artwork: Option<string>, artistCount: nat, trackCount: nat, showLarge: bool, hour: nat)
    ensures var (_, es) := ArtworkStatus(artwork, artistCount, trackCount, showLarge, hour);
            (artistCount == 0 ==> FirstTimeKey in Keys(es) && ArtistScrobblesKey !in Keys(es)) &&
            (ArtistScrobblesKey in Keys(es) <==> artistCount != 0 && showLarge) &&
            (FirstTimeKey in Keys(es) <==> artistCount == 0)
  {
    var (_, es) := ArtworkStatus(artwork, artistCount, trackCount, showLarge, hour);
    if artistCount == 0 {
      assert Keys(es)[|es| - 1] == FirstTimeKey;
    } else if showLarge {
      assert Keys(es)[|es| - 1] == ArtistScrobblesKey;
    }
  }

  /** In album-name mode (artwork present, artist known, counts hidden) the large text
      is the album, or the listening-now message when the album is empty. */
  lemma AlbumNameMode(artwork: string, album: string, library: LibraryData, p: Prefs, hour: nat, tr: Messenger)
    requires library.artistCount != 0 && !p.showArtistScrobblesLarge
    ensures LargeImageDetails(Some(artwork), album, library, p, hour, tr) ==
            (artwork, if album != "" then album else tr(ListeningNow))
  {
    assert Render([], tr) == [];
    assert ImageText([], RpcLineLimit, RpcXChar) == "";
  }

  /** The large text is never empty while the album is not. */
  lemma LargeTextNeverBlank(artwork: Option<string>, album: string, library: LibraryData, p: Prefs, hour: nat, tr: Messenger)
    requires album != ""
    ensures LargeImageDetails(artwork, album, library, p, hour, tr).1 != ""
  {
  }

  // ---------------------------------------------------------------- small image

  /** The small-image asset: avatar, then default icon, then Last.fm icon. */
  function SmallImageAsset(p: Prefs, user: UserData): Option<string>
  {
    if !p.showSmallImage then None
    else if p.useCustomProfileImage then Some(user.avatarUrl)
    else if p.useDefaultIcon then Some(DefaultAvatarUrl)
    else if p.useLastfmIcon then Some(LastfmIconUrl)
    else None
  }

  /** One optional entry: present when its preference is on. */
  function When(on: bool, e: Entry): seq<Entry>
  {
    if on then [e] else []
  }

  /** The small-image hover lines, each present when its preference is on. */
  function SmallImageEntries(p: Prefs, user: UserData, username: string): seq<Entry>
  {
    When(p.showUsername, Entry(NameKey, Plain(user.displayName + " (@" + username + ")"))) +
    When(p.showScrobbles, Entry(ScrobblesKey, Translated(Scrobbles(user.scrobbles)))) +
    When(p.showArtists, Entry(ArtistsKey, Translated(Artists(user.artists)))) +
    When(p.showLoved, Entry(LovedTracksKey, Translated(LovedTracks(user.lovedTracks))))
  }

  /** The small-image asset and hover text; both absent when the small image is off. */
  function SmallImageDetails(p: Prefs, user: UserData, username: string, tr: Messenger): (Option<string>, Option<string>)
  {
    if !p.showSmallImage then (None, None)
    else (SmallImageAsset(p, user),
          Some(ImageText(Render(SmallImageEntries(p, user, username), tr), RpcLineLimit, RpcXChar)))
  }

  /** With the small image off nothing is shown; otherwise, with exactly one source
      selected, the asset is always present and is that source's image. */
  lemma SmallImageSource(p: Prefs, user: UserData, username: string, tr: Messenger)
    ensures !p.showSmallImage ==> SmallImageDetails(p, user, username, tr) == (None, None)
    ensures p.showSmallImage && SourceExclusive(p) ==>
              SmallImageDetails(p, user, username, tr).0 ==
                Some(if p.useCustomProfileImage then user.avatarUrl
                     else if p.useDefaultIcon then DefaultAvatarUrl else LastfmIconUrl)
  {
  }

  /** The keys of a concatenation are the concatenated keys. */
  lemma {:induction false} KeysAppend(a: seq<Entry>, b: seq<Entry>)
    ensures Keys(a + b) == Keys(a) + Keys(b)
    decreases |b|
  {
    if |b| == 0 {
      assert a + b == a;
    } else {
      var b' := b[..|b| - 1];
      assert (a + b)[..|a + b| - 1] == a + b';
      KeysAppend(a, b');
      assert Keys(b) == Keys(b') + [b[|b| - 1].key];
    }
  }

  lemma KeysWhen(on: bool, e: Entry)
    ensures Keys(When(on, e)) == if on then [e.key] else []
  {
    if on {
      assert [e][..0] == [];
    }
  }

  /** The small-image lines come in a fixed order (name, scrobbles, artists, loved
      tracks), each present exactly when its preference is on. */
  lemma SmallImageKeys(p: Prefs, user: UserData, username: string)
    ensures Keys(SmallImageEntries(p, user, username)) ==
            (if p.showUsername then [NameKey] else []) + (if p.showScrobbles then [ScrobblesKey] else []) +
            (if p.showArtists then [ArtistsKey] else []) + (if p.showLoved then [LovedTracksKey] else [])
  {
    var w1 := When(p.showUsername, Entry(NameKey, Plain(user.displayName + " (@" + username + ")")));
    var w2 := When(p.showScrobbles, Entry(ScrobblesKey, Translated(Scrobbles(user.scrobbles))));
    var w3 := When(p.showArtists, Entry(ArtistsKey, Translated(Artists(user.artists))));
    var w4 := When(p.showLoved, Entry(LovedTracksKey, Translated(LovedTracks(user.lovedTracks))));
    KeysWhen(p.showUsername, Entry(NameKey, Plain(user.displayName + " (@" + username + ")")));
    KeysWhen(p.showScrobbles, Entry(ScrobblesKey, Translated(Scrobbles(user.scrobbles))));
    KeysWhen(p.showArtists, Entry(ArtistsKey, Translated(Artists(user.artists))));
    KeysWhen(p.showLoved, Entry(LovedTracksKey, Translated(LovedTracks(user.lovedTracks))));
    KeysAppend(w1, w2);
    KeysAppend(w1 + w2, w3);
    KeysAppend(w1 + w2 + w3, w4);
  }

  // ---------------------------------------------------------------- buttons

  datatype Button = Button(caption: string, url: string)

  /** The track page in the user's Last.fm library, then a YouTube Music search for the album. */
  function Buttons(username: string, artist: string, title: string, album: string, h: Helpers): (bs: seq<Button>)
    ensures |bs| == 2
    ensures bs[0].caption == h.messenger(FocusTrack) && bs[1].caption == "YouTube Music"
    ensures StartsWith(bs[0].url, LastfmBaseUrl + "/user/" + username + "/library/music/")
    ensures StartsWith(bs[1].url, YtMusicSearchUrl(""))
  {
    var track := LastfmTrackUrl(username, h.urlEncode(artist), h.urlEncode(title));
    var search := YtMusicSearchUrl(h.urlEncode(album));
    assert track[..|LastfmBaseUrl + "/user/" + username + "/library/music/"|] ==
           LastfmBaseUrl + "/user/" + username + "/library/music/";
    assert search[..|YtMusicSearchUrl("")|] == YtMusicSearchUrl("");
    [Button(h.messenger(FocusTrack), track), Button("YouTube Music", search)]
  }

  // ---------------------------------------------------------------- remaining time

  predicate IsDigit(c: char)
  {
    '0' <= c <= '9'
  }

  /** `str(n)` for a natural number. */
  function DecimalString(n: nat): (s: string)
    ensures |s| >= 1 && forall i :: 0 <= i < |s| ==> IsDigit(s[i])
    ensures (|s| <= 3 <==> n < 1000) && (|s| >= 3 <==> n >= 100)
  {
    if n < 10 then [(48 + n) as char] else DecimalString(n / 10) + [(48 + n % 10) as char]
  }

  /** The number a string of decimal digits denotes. */
  function ParseDigits(s: string): nat
    requires forall i :: 0 <= i < |s| ==> IsDigit(s[i])
  {
    if |s| == 0 then 0
    else
      assert IsDigit(s[|s| - 1]) && '0' as int == 48;
      ParseDigits(s[..|s| - 1]) * 10 + (s[|s| - 1] as int - 48)
  }

  /** `float(str(n)[0:3])`: the leading (at most three) decimal digits of `n`. */
  function TruncatedRemaining(n: nat): (r: nat)
    ensures n < 1000 ==> r == n
  {
    var s := DecimalString(n);
    var lead := s[..if |s| < 3 then |s| else 3];
    assert n < 1000 ==> lead == s;
    DecimalRoundTrip(n);
    ParseDigits(lead)
  }

  lemma {:induction false} DecimalRoundTrip(n: nat)
    ensures ParseDigits(DecimalString(n)) == n
  {
    if n >= 10 {
      DecimalRoundTrip(n / 10);
      var s := DecimalString(n);
      assert s[..|s| - 1] == DecimalString(n / 10);
    }
  }

  /** Below 1000 the value is kept; from 1000 on, the last digit is dropped until
      three remain. */
  lemma TruncationDropsTrailingDigits(n: nat)
    ensures TruncatedRemaining(n) == if n < 1000 then n else TruncatedRemaining(n / 10)
  {
    if n >= 1000 {
      var s, t := DecimalString(n), DecimalString(n / 10);
      assert s == t + [(48 + n % 10) as char];
      assert s[..3] == t[..3];
    }
  }

  /** The truncated value never exceeds the input or 999, stays positive, and keeps
      three digits whenever the input has at least three. */
  lemma {:induction false} TruncationBounds(n: nat)
    ensures TruncatedRemaining(n) <= n && TruncatedRemaining(n) < 1000
    ensures n > 0 ==> TruncatedRemaining(n) > 0
    ensures n >= 100 ==> TruncatedRemaining(n) >= 100
    decreases n
  {
    TruncationDropsTrailingDigits(n);
    if n >= 1000 {
      TruncationBounds(n / 10);
    }
  }

  /** Worked values: three-digit inputs are kept, longer ones keep their first three digits. */
  lemma TruncationExamples()
    ensures TruncatedRemaining(7) == 7
    ensures TruncatedRemaining(125) == 125
    ensures TruncatedRemaining(1259) == 125
    ensures TruncatedRemaining(200000) == 200
  {
    TruncationDropsTrailingDigits(7);
    TruncationDropsTrailingDigits(125);
    TruncationDropsTrailingDigits(1259);
    TruncationDropsTrailingDigits(200000);
    TruncationDropsTrailingDigits(20000);
    TruncationDropsTrailingDigits(2000);
    TruncationDropsTrailingDigits(200);
  }

  // ---------------------------------------------------------------- payload

  /** Which line the host shows as the status: the state line or the details line. */
  datatype DisplayType = StateDisplay | DetailsDisplay

  /** The presence update (its activity type, "listening", is fixed and left implicit). */
  datatype Payload = Payload(
    displayType: DisplayType,
    details: string,
    state: string,
    buttons: seq<Button>,
    smallImage: Option<string>,
    smallText: Option<string>,
    largeText: string,
    largeImage: string,
    end: Option<int>)

  /** A title shorter than two characters gets one trailing space. */
  function PaddedTitle(title: string): (t: string)
    ensures title <= t
    ensures |t| == if |title| < 2 then |title| + 1 else |title|
  {
    if |title| < 2 then title + " " else title
  }

  function AssemblePayload(p: Prefs, title: string, artist: string, album: string,
                           timeRemaining: nat, startTime: int, buttons: seq<Button>,
                           small: (Option<string>, Option<string>), large: (string, string)): (r: Payload)
    ensures r.details == title && r.buttons == buttons
    ensures (r.smallImage, r.smallText) == small && r.largeText == large.1
    ensures r.end.Some? <==> timeRemaining > 0
    ensures r.displayType == StateDisplay <==> p.focusArtist
  {
    var countdown := timeRemaining > 0;
    Payload(
      if p.focusArtist then StateDisplay else DetailsDisplay,
      title,
      if countdown && album != "" then artist + " - " + album else artist,
      buttons,
      small.0, small.1,
      large.1,
      if !countdown && album == "" then "artwork" else large.0,
      if countdown then Some(TruncatedRemaining(timeRemaining) + startTime) else None)
  }

  /** The payload rules: a countdown exists exactly when time remains; the state line
      is "artist - album" exactly when there is a countdown and an album; the generic
      `artwork` image is used when there is neither; the end time is the start time
      plus the truncated remaining time, and is later than the start. */
  lemma PayloadRules(p: Prefs, title: string, artist: string, album: string,
                     timeRemaining: nat, startTime: int, buttons: seq<Button>,
                     small: (Option<string>, Option<string>), large: (string, string))
    ensures var pl := AssemblePayload(p, title, artist, album, timeRemaining, startTime, buttons, small, large);
            (pl.end.Some? <==> timeRemaining > 0) &&
            (pl.state == artist + " - " + album <==> timeRemaining > 0 && album != "") &&
            (pl.state != artist + " - " + album ==> pl.state == artist) &&
            (timeRemaining == 0 && album == "" ==> pl.largeImage == "artwork") &&
            (timeRemaining > 0 || album != "" ==> pl.largeImage == large.0) &&
            (pl.end.Some? ==> startTime < pl.end.value <= startTime + timeRemaining) &&
            (pl.displayType == StateDisplay <==> p.focusArtist)
  {
    TruncationBounds(timeRemaining);
    assert |artist + " - " + album| > |artist|;
  }

  /** The payload `update_status` pushes for one track, from the preferences, the
      track's fields, the profile and library records and the clock. */
  function StatusPayload(p: Prefs, title: string, artist: string, album: string, timeRemaining: nat,
                         username: string, artwork: Option<string>, user: UserData, library: LibraryData,
                         hour: nat, timestamp: int, h: Helpers): (r: Payload)
    ensures title <= r.details && (|title| >= 2 ==> r.details == title)
    ensures r.end.Some? <==> timeRemaining > 0
    ensures r.state == if timeRemaining > 0 && album != "" then artist + " - " + album else artist
    ensures r.smallText.Some? <==> p.showSmallImage
    ensures !p.showSmallImage ==> r.smallImage.None?
    ensures artwork.Some? && (timeRemaining > 0 || album != "") ==> r.largeImage == artwork.value
  {
    var t := PaddedTitle(title);
    AssemblePayload(p, t, artist, album, timeRemaining, timestamp,
                    Buttons(username, artist, t, album, h),
                    SmallImageDetails(p, user, username, h.messenger),
                    LargeImageDetails(artwork, album, library, p, hour, h.messenger))
  }
}
