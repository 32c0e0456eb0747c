/** What the home page (src/app/page.tsx) selects from the content for
    display: the streaming and social links with their icons, the EP track
    cards with their numbers, status styling and action buttons, and the
    weekly-cover quick links. Markup and styling are not modelled; a card is
    the record of what it shows. */
module HomePage {
  import opened Wrappers
  import opened Content

  // ---------------------------------------------------------------------------
  // Link rows in the hero

  datatype StreamingIcon = SpotifyIcon | AppleMusicIcon

  datatype SocialIcon = InstagramIcon | TikTokIcon | YouTubeIcon

  /** The icon of a streaming link: Spotify's for "Spotify", Apple Music's for
      every other label. */
  function StreamingIconFor(linkLabel: string): (i: StreamingIcon)
    ensures i == SpotifyIcon <==> linkLabel == "Spotify"
    ensures i == AppleMusicIcon <==> linkLabel != "Spotify"
  {
    if linkLabel == "Spotify" then SpotifyIcon else AppleMusicIcon
  }

  /** The icon of a social link: Instagram's and TikTok's for their own
      labels, YouTube's for every other label. */
  function SocialIconFor(linkLabel: string): (i: SocialIcon)
    ensures i == InstagramIcon <==> linkLabel == "Instagram"
    ensures i == TikTokIcon <==> linkLabel == "TikTok"
    ensures i == YouTubeIcon <==> linkLabel != "Instagram" && linkLabel != "TikTok"
  {
    if linkLabel == "Instagram" then InstagramIcon
    else if linkLabel == "TikTok" then TikTokIcon
    else YouTubeIcon
  }

  /** A rendered link: its React key, its href, its icon and its text. */
  datatype LinkView<I> = LinkView(key: string, href: string, icon: I, text: string)

  /** One link per streaming entry, in stored order, keyed and labelled by
      its label, with its href passed through. */
  function StreamingLinks(links: seq<SocialLink>): (r: seq<LinkView<StreamingIcon>>)
    ensures |r| == |links|
    ensures forall i :: 0 <= i < |links| ==>
      && r[i].key == r[i].text == links[i].linkLabel
      && r[i].href == links[i].href
      && (r[i].icon == SpotifyIcon <==> links[i].linkLabel == "Spotify")
  {
    seq(|links|, i requires 0 <= i < |links| =>
      LinkView(links[i].linkLabel, links[i].href, StreamingIconFor(links[i].linkLabel), links[i].linkLabel))
  }

  /** One link per social entry, in stored order, keyed and labelled by its
      label, with its href passed through. */
  function SocialLinks(links: seq<SocialLink>): (r: seq<LinkView<SocialIcon>>)
    ensures |r| == |links|
    ensures forall i :: 0 <= i < |links| ==>
      && r[i].key == r[i].text == links[i].linkLabel
      && r[i].href == links[i].href
      && (r[i].icon == InstagramIcon <==> links[i].linkLabel == "Instagram")
      && (r[i].icon == TikTokIcon <==> links[i].linkLabel == "TikTok")
  {
    seq(|links|, i requires 0 <= i < |links| =>
      LinkView(links[i].linkLabel, links[i].href, SocialIconFor(links[i].linkLabel), links[i].linkLabel))
  }

  /** A link row can be read back: the entries are recovered from the
      rendered keys and hrefs. */
  lemma LinkRowsRoundTrip(links: seq<SocialLink>)
    ensures seq(|links|, i requires 0 <= i < |links| =>
      SocialLink(StreamingLinks(links)[i].text, StreamingLinks(links)[i].href)) == links
    ensures seq(|links|, i requires 0 <= i < |links| =>
      SocialLink(SocialLinks(links)[i].text, SocialLinks(links)[i].href)) == links
  {
  }

  // ---------------------------------------------------------------------------
  // Decimal numerals, for the track number in a card's React key

  function Digit(d: nat): (c: char)
    requires d < 10
    ensures '0' <= c <= '9'
    ensures c as int - '0' as int == d
  {
    ('0' as int + d) as char
  }

  predicate IsDigit(c: char) {
    '0' <= c <= '9'
  }

  /** The decimal numeral of `n`, as a template literal prints it. */
  function Decimal(n: nat): (s: string)
    ensures s != []
    ensures forall c :: c in s ==> IsDigit(c)
    ensures s[0] == '0' <==> n == 0
    ensures |s| == 1 || s[0] != '0'
  {
    if n < 10 then [Digit(n)] else Decimal(n / 10) + [Digit(n % 10)]
  }

  /** The value of a string of digits. */
  function DecimalValue(s: string): (n: nat)
    requires forall c :: c in s ==> IsDigit(c)
  {
    if s == [] then 0
    else
      var c := s[|s| - 1];
      assert forall x :: x in s[..|s| - 1] ==> x in s;
      assert c in s && IsDigit(c);
      10 * DecimalValue(s[..|s| - 1]) + (c as int - '0' as int)
  }

  /** Reading a numeral back gives the number printed. */
  lemma {:induction false} DecimalRoundTrip(n: nat)
    ensures DecimalValue(Decimal(n)) == n
  {
    if n >= 10 {
      DecimalRoundTrip(n / 10);
      var s := Decimal(n);
      assert s[..|s| - 1] == Decimal(n / 10);
    }
  }

  // ---------------------------------------------------------------------------
  // EP track cards

  datatype ActionKind = SpotifyAction | AppleMusicAction | VisualVideoAction

  /** The accessible label (and tooltip) of an action button. */
  function ActionLabel(k: ActionKind): (s: string)
  {
    match k
    case SpotifyAction => "Spotify"
    case AppleMusicAction => "Apple Music"
    case VisualVideoAction => "Visual Video (YouTube)"
  }

  lemma ActionLabelsDistinct(k: ActionKind, l: ActionKind)
    ensures ActionLabel(k) == ActionLabel(l) <==> k == l
  {
  }

  datatype ActionButton = ActionButton(kind: ActionKind, href: string)

  /** The button for one optional URL: there when the URL is truthy. */
  function ButtonIf(k: ActionKind, url: Option<string>): (r: seq<ActionButton>)
    ensures |r| <= 1
    ensures |r| == 1 <==> Present(url)
    ensures |r| == 1 ==> r[0] == ActionButton(k, url.value)
  {
    if Present(url) then [ActionButton(k, url.value)] else []
  }

  /** The action buttons of a track, in the order Spotify, Apple Music,
      Visual Video; none at all unless the track is out. */
  function Actions(t: EPTrack): (r: seq<ActionButton>)
  {
    if t.status == OutNow then
      ButtonIf(SpotifyAction, t.spotifyUrl)
      + ButtonIf(AppleMusicAction, t.appleMusicUrl)
      + ButtonIf(VisualVideoAction, t.visualVideoUrl)
    else []
  }

  /** The URL of a track behind each kind of button. */
  function UrlFor(t: EPTrack, k: ActionKind): Option<string> {
    match k
    case SpotifyAction => t.spotifyUrl
    case AppleMusicAction => t.appleMusicUrl
    case VisualVideoAction => t.visualVideoUrl
  }

  /** An upcoming track shows no button, whatever URLs it carries. */
  lemma UpcomingHasNoActions(t: EPTrack)
    requires t.status == Upcoming
    ensures Actions(t) == []
  {
  }

  /** Every button of a track goes to the track's truthy URL of its kind. */
  lemma ActionsGoToTheirUrls(t: EPTrack)
    ensures forall b :: b in Actions(t) ==> Present(UrlFor(t, b.kind)) && b.href == UrlFor(t, b.kind).value
  {
    if t.status == OutNow {
      var s, m, v := ButtonIf(SpotifyAction, t.spotifyUrl), ButtonIf(AppleMusicAction, t.appleMusicUrl),
        ButtonIf(VisualVideoAction, t.visualVideoUrl);
      assert Actions(t) == s + m + v;
    }
  }

  /** An out track shows the button of a kind exactly when that URL is
      truthy. */
  lemma OutActionsFollowUrls(t: EPTrack, k: ActionKind)
    requires t.status == OutNow
    ensures (exists i :: 0 <= i < |Actions(t)| && Actions(t)[i].kind == k) <==> Present(UrlFor(t, k))
  {
    var s, m, v := ButtonIf(SpotifyAction, t.spotifyUrl), ButtonIf(AppleMusicAction, t.appleMusicUrl),
      ButtonIf(VisualVideoAction, t.visualVideoUrl);
    var a := Actions(t);
    assert a == s + m + v;
    match k
    case SpotifyAction =>
      if Present(t.spotifyUrl) { assert a[0].kind == k; }
      assert forall i :: 0 <= i < |a| ==> a[i] in s + m + v;
    case AppleMusicAction =>
      if Present(t.appleMusicUrl) { assert a[|s|].kind == k; }
      assert forall i :: 0 <= i < |a| ==> a[i] in s + m + v;
    case VisualVideoAction =>
      if Present(t.visualVideoUrl) { assert a[|s| + |m|].kind == k; }
      assert forall i :: 0 <= i < |a| ==> a[i] in s + m + v;
  }

  /** The buttons come in the order Spotify, Apple Music, Visual Video, each
      kind at most once. */
  lemma ActionsInOrder(t: EPTrack)
    ensures |Actions(t)| <= 3
    ensures forall i, j :: 0 <= i < j < |Actions(t)| ==> Rank(Actions(t)[i].kind) < Rank(Actions(t)[j].kind)
  {
    if t.status == OutNow {
      var s, m, v := ButtonIf(SpotifyAction, t.spotifyUrl), ButtonIf(AppleMusicAction, t.appleMusicUrl),
        ButtonIf(VisualVideoAction, t.visualVideoUrl);
      var a := Actions(t);
      assert a == s + m + v;
      assert forall i :: 0 <= i < |s| ==> a[i].kind == SpotifyAction;
      assert forall i :: |s| <= i < |s| + |m| ==> a[i].kind == AppleMusicAction;
      assert forall i :: |s| + |m| <= i < |a| ==> a[i].kind == VisualVideoAction;
    }
  }

  /** The position of each kind of button in the group. */
  function Rank(k: ActionKind): nat {
    match k
    case SpotifyAction => 0
    case AppleMusicAction => 1
    case VisualVideoAction => 2
  }

  /** A track card: its React key, its number, title, status text, whether it
      has the highlighted style (card and status badge alike), its text and
      its action buttons. */
  datatype TrackView = TrackView(
    key: string,
    number: nat,
    title: string,
    statusText: string,
    highlighted: bool,
    description: string,
    actions: seq<ActionButton>)

  /** The card of the track at position `idx`. */
  function TrackCard(idx: nat, t: EPTrack): (v: TrackView)
    ensures v.key == Decimal(idx + 1) + "-" + t.title
    ensures v.number == idx + 1
    ensures v.title == t.title && v.description == t.description
    ensures v.actions == Actions(t)
    ensures ParseStatus(v.statusText) == Some(t.status)
    ensures v.highlighted <==> t.status == OutNow
    ensures !v.highlighted ==> v.actions == []
  {
    StatusTextsRoundTrip(t.status, "");
    var isOut := t.status == OutNow;
    TrackView(Decimal(idx + 1) + "-" + t.title, idx + 1, t.title, StatusText(t.status), isOut, t.description, Actions(t))
  }

  /** One card per track, in stored order, numbered from 1; a card is
      highlighted exactly when its track is out, and only then has buttons. */
  function TrackCards(tracks: seq<EPTrack>): (r: seq<TrackView>)
    ensures |r| == |tracks|
    ensures forall i :: 0 <= i < |tracks| ==>
      && r[i].key == Decimal(i + 1) + "-" + tracks[i].title
      && r[i].number == i + 1
      && r[i].title == tracks[i].title
      && r[i].description == tracks[i].description
      && ParseStatus(r[i].statusText) == Some(tracks[i].status)
      && (r[i].highlighted <==> tracks[i].status == OutNow)
      && (!r[i].highlighted ==> r[i].actions == [])
      && r[i].actions == Actions(tracks[i])
  {
    seq(|tracks|, i requires 0 <= i < |tracks| => TrackCard(i, tracks[i]))
  }

  /** A numeral, a hyphen, then any text: the first hyphen ends the numeral,
      so the numeral and the text can be read back. */
  lemma NumeralKeyInjective(a: string, b: string, x: string, y: string)
    requires forall c :: c in a ==> IsDigit(c)
    requires forall c :: c in b ==> IsDigit(c)
    requires a + "-" + x == b + "-" + y
    ensures a == b && x == y
  {
    var k := a + "-" + x;
    assert forall i :: 0 <= i < |a| ==> k[i] == a[i] && a[i] in a;
    assert forall i :: 0 <= i < |b| ==> k[i] == b[i] && b[i] in b;
    assert k[|a|] == '-' == k[|b|];
    assert |a| == |b|;
    assert a == k[..|a|] == b;
    assert x == k[|a| + 1..] == y;
  }

  /** `${idx + 1}-${title}` keys are pairwise distinct, whatever the titles:
      the numeral before the first hyphen tells the cards apart. */
  lemma TrackKeysUnique(tracks: seq<EPTrack>)
    ensures forall i, j :: 0 <= i < j < |tracks| ==> TrackCards(tracks)[i].key != TrackCards(tracks)[j].key
  {
    var r := TrackCards(tracks);
    forall i, j | 0 <= i < j < |tracks|
      ensures r[i].key != r[j].key
    {
      if r[i].key == r[j].key {
        NumeralKeyInjective(Decimal(i + 1), Decimal(j + 1), tracks[i].title, tracks[j].title);
        DecimalRoundTrip(i + 1);
        DecimalRoundTrip(j + 1);
      }
    }
  }

  // ---------------------------------------------------------------------------
  // Weekly-cover quick links

  /** A quick link: its React key, its text and its href. */
  datatype QuickLink = QuickLink(key: string, text: string, href: string)

  /** One quick link per channel, in stored order, named by its platform,
      with the channel's href passed through. */
  function QuickLinks(chs: seq<WeeklyCoverChannel>): (r: seq<QuickLink>)
    ensures |r| == |chs|
    ensures forall i :: 0 <= i < |chs| ==>
      && ParsePlatform(r[i].text) == Some(chs[i].platform)
      && r[i].key == r[i].text
      && r[i].href == chs[i].href
  {
    seq(|chs|, i requires 0 <= i < |chs| =>
      (PlatformNamesRoundTrip(chs[i].platform, "");
       QuickLink(PlatformName(chs[i].platform), PlatformName(chs[i].platform), chs[i].href)))
  }

  // ---------------------------------------------------------------------------
  // The home page of the site

  /** The site's streaming row shows Spotify then Apple Music, and its social
      row Instagram, TikTok then YouTube, each with its own icon. */
  lemma SiteLinkRows()
    ensures |StreamingLinks(Streaming)| == 2
    ensures StreamingLinks(Streaming)[0].icon == SpotifyIcon
    ensures StreamingLinks(Streaming)[1].icon == AppleMusicIcon
    ensures |SocialLinks(Socials)| == 3
    ensures SocialLinks(Socials)[0].icon == InstagramIcon
    ensures SocialLinks(Socials)[1].icon == TikTokIcon
    ensures SocialLinks(Socials)[2].icon == YouTubeIcon
  {
    LinkLabels();
  }

  /** The site's EP: four cards numbered 1 to 4; the first is highlighted
      and has its three buttons, the three upcoming ones are muted and have
      none. */
  lemma SiteTrackCards()
    ensures |TrackCards(Tracks)| == 4
    ensures forall i :: 0 <= i < 4 ==> TrackCards(Tracks)[i].number == i + 1
    ensures forall i :: 0 <= i < 4 ==> (TrackCards(Tracks)[i].highlighted <==> i == 0)
    ensures forall i :: 1 <= i < 4 ==> TrackCards(Tracks)[i].actions == []
    ensures |TrackCards(Tracks)[0].actions| == 3
    ensures TrackCards(Tracks)[0].actions[0] == ActionButton(SpotifyAction, Tracks[0].spotifyUrl.value)
    ensures TrackCards(Tracks)[0].actions[1] == ActionButton(AppleMusicAction, Tracks[0].appleMusicUrl.value)
    ensures TrackCards(Tracks)[0].actions[2] == ActionButton(VisualVideoAction, Tracks[0].visualVideoUrl.value)
  {
    TracksHold();
  }

  /** The site's quick links name Instagram, TikTok and YouTube Shorts, in
      that order. */
  lemma SiteQuickLinks()
    ensures |QuickLinks(WeeklyCovers)| == 3
    ensures ParsePlatform(QuickLinks(WeeklyCovers)[0].text) == Some(Instagram)
    ensures ParsePlatform(QuickLinks(WeeklyCovers)[1].text) == Some(TikTok)
    ensures ParsePlatform(QuickLinks(WeeklyCovers)[2].text) == Some(YouTubeShorts)
  {
    ChannelsInOrder();
  }
}
