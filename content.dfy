/** The site's content store (src/content/site.ts): the record types of the
    artist's profile, links, EP roadmap and cover index, and the one
    immutable value of them that both pages read. */
module Content {
  import opened Wrappers

  /** A labelled outbound link (a streaming service or a social profile);
      `linkLabel` is the source's `label`, a reserved word in Dafny. */
  datatype SocialLink = SocialLink(linkLabel: string, href: string)

  /** The closed enumeration of platforms a weekly cover is posted on. */
  datatype CoverPlatform = Instagram | TikTok | YouTubeShorts

  /** The string literal the source uses for each platform. */
  function PlatformName(p: CoverPlatform): (s: string)
  {
    match p
    case Instagram => "Instagram"
    case TikTok => "TikTok"
    case YouTubeShorts => "YouTube Shorts"
  }

  /** The string literal type `CoverPlatform`: exactly three strings are members. */
  function ParsePlatform(s: string): (r: Option<CoverPlatform>)
    ensures r.Some? <==> s in {"Instagram", "TikTok", "YouTube Shorts"}
  {
    if s == "Instagram" then Some(Instagram)
    else if s == "TikTok" then Some(TikTok)
    else if s == "YouTube Shorts" then Some(YouTubeShorts)
    else None
  }

  /** Every platform has its own name, and only the three names are platforms. */
  lemma PlatformNamesRoundTrip(p: CoverPlatform, s: string)
    ensures ParsePlatform(PlatformName(p)) == Some(p)
    ensures ParsePlatform(s) == Some(p) ==> PlatformName(p) == s
  {
  }

  datatype WeeklyCoverChannel = WeeklyCoverChannel(platform: CoverPlatform, description: string, href: string)

  /** The closed enumeration of EP track statuses. */
  datatype EPTrackStatus = OutNow | Upcoming

  function StatusText(t: EPTrackStatus): (s: string)
  {
    match t
    case OutNow => "out now"
    case Upcoming => "upcoming"
  }

  /** The string literal type `EPTrackStatus`: exactly two strings are members. */
  function ParseStatus(s: string): (r: Option<EPTrackStatus>)
    ensures r.Some? <==> s in {"out now", "upcoming"}
  {
    if s == "out now" then Some(OutNow)
    else if s == "upcoming" then Some(Upcoming)
    else None
  }

  lemma StatusTextsRoundTrip(t: EPTrackStatus, s: string)
    ensures ParseStatus(StatusText(t)) == Some(t)
    ensures ParseStatus(s) == Some(t) ==> StatusText(t) == s
  {
  }

  /** A track of the EP roadmap; the three links are optional fields. */
  datatype EPTrack = EPTrack(
    title: string,
    status: EPTrackStatus,
    description: string,
    spotifyUrl: Option<string>,
    appleMusicUrl: Option<string>,
    visualVideoUrl: Option<string>)

  datatype EP = EP(title: string, description: string, tracks: seq<EPTrack>)

  datatype ImageAsset = ImageAsset(src: string, alt: string)

  /** An entry of the cover index: the Instagram post is mandatory, the
      artist, the featured guest and the YouTube video are optional. */
  datatype CoveredSong = CoveredSong(
    title: string,
    artist: Option<string>,
    featuring: Option<string>,
    instagramPostUrl: string,
    youtubeUrl: Option<string>)

  /** The aggregate the pages read. */
  datatype SiteContent = SiteContent(
    artistName: string,
    tagline: string,
    bio: string,
    streaming: seq<SocialLink>,
    socials: seq<SocialLink>,
    weeklyCovers: seq<WeeklyCoverChannel>,
    albumCover: ImageAsset,
    ep: EP,
    coversDescription: string,
    coverIndex: seq<CoveredSong>)

  /** JavaScript truthiness of an optional string field: an absent field and
      an empty string both count as missing. */
  predicate Present(o: Option<string>) {
    o.Some? && o.value != ""
  }

  // ---------------------------------------------------------------------------
  // The `site` literal

  const Streaming: seq<SocialLink> := [
    SocialLink("Spotify", "https://open.spotify.com/artist/3EQzwSPbIFX0rWxWCP5ofw?si=rcyTIzviR7iNNiuLQJn_jw"),
    SocialLink("Apple Music", "https://music.apple.com/us/artist/terence-dumas/1872041101")
  ]

  const Socials: seq<SocialLink> := [
    SocialLink("Instagram", "https://www.instagram.com/terencedumas/"),
    SocialLink("TikTok", "https://www.tiktok.com/@terencedumasmusic"),
    SocialLink("YouTube", "https://www.youtube.com/@terencedumas")
  ]

  const WeeklyCovers: seq<WeeklyCoverChannel> := [
    WeeklyCoverChannel(Instagram,
      "This is where I post my full covers. Definitely not algorithm friendly, but I'm doing this mainly as a self portfolio, and a way for friends and family to enjoy my work.",
      "https://www.instagram.com/terencedumas/"),
    WeeklyCoverChannel(TikTok,
      "This is where I try to optimize my videos for the algorithm. Not working super great so far, but I feel like I am slowly getting the hang of it.",
      "https://www.tiktok.com/@terencedumasmusic"),
    WeeklyCoverChannel(YouTubeShorts,
      "This is a sort of middle ground between my strategy for Instagram and Tiktok.",
      "https://www.youtube.com/@terencedumas/shorts")
  ]

  const Tracks: seq<EPTrack> := [
    EPTrack("It Can't Understand", OutNow,
      "Track 1 of the EP. This is the intro song, with a visual video available.",
      Some("https://open.spotify.com/track/3NxBvEOmhce0gEupxAI9kt?si=ac7dfa59d87047f9"),
      Some("https://music.apple.com/us/song/it-cant-understand/1872271006"),
      Some("https://www.youtube.com/watch?v=w8b0pCX_ojw")),
    EPTrack("Track 2", Upcoming, "Upcoming track.", None, None, None),
    EPTrack("Track 3", Upcoming, "Upcoming track.", None, None, None),
    EPTrack("Track 4", Upcoming, "Upcoming track.", None, None, None)
  ]

  const CoverIndex: seq<CoveredSong> := [
    CoveredSong("Next Summer", Some("Damiano David"), None, "https://www.instagram.com/p/DPo3vKyElJi/", Some("https://www.youtube.com/watch?v=QyqnFLOXE8c")),
    CoveredSong("Mon Amour", Some("Slimane"), None, "https://www.instagram.com/p/DQpGjV_gK-h/", Some("https://www.youtube.com/watch?v=w5OO7PpbFRE")),
    CoveredSong("Glimpse of Us", Some("Joji"), None, "https://www.instagram.com/p/DQuQcqGEWz5/", None),
    CoveredSong("The A Team", Some("Ed Sheeran"), None, "https://www.instagram.com/p/DQ7ER-EEQAB/", None),
    CoveredSong("Lucky", Some("Channie Duffman"), None, "https://www.instagram.com/p/DRNDKzwER3s/", None),
    CoveredSong("Yesterday", Some("The Beatles"), None, "https://www.instagram.com/p/DRfR5hgj9wb/", None),
    CoveredSong("The Vow", Some("Ed Sheeran"), Some("Robin Dumas"), "https://www.instagram.com/p/DRz0dcJEWM9/", Some("https://www.youtube.com/watch?v=5pxcGWEHCt4")),
    CoveredSong("Break My Heart Again", Some("FINNEAS"), None, "https://www.instagram.com/p/DSDQRU5kSjF/", None),
    CoveredSong("I'd Rather Pretend", Some("Bryant Barnes"), None, "https://www.instagram.com/p/DSVPR9tkcKG/", None),
    CoveredSong("Photograph", Some("Cody Fry"), None, "https://www.instagram.com/p/DSoHjx0CLO0/", None),
    CoveredSong("Who Knows", Some("Daniel Caesar"), None, "https://www.instagram.com/p/DS0xzwQDwWA/", None),
    CoveredSong("Wherever You Go", Some("Max Allais"), None, "https://www.instagram.com/p/DTHA0zxDBDY/", None),
    CoveredSong("Sparks", Some("Coldplay"), None, "https://www.instagram.com/p/DTZEO7hjIw9/", None),
    CoveredSong("Someone You Loved", Some("Lewis Capaldi"), None, "https://www.instagram.com/p/DTrCSCcD91S/", Some("https://www.youtube.com/watch?v=ATpNmi7Ubjg")),
    CoveredSong("Don't Want a Love Song", Some("Bryant Barnes"), None, "https://www.instagram.com/p/DT8_hB4j6-h/", None),
    CoveredSong("All I Ask", Some("Adele"), None, "https://www.instagram.com/p/DUPGAUaD8TJ/", None),
    CoveredSong("Ponyo", Some("Randjess"), None, "https://www.instagram.com/p/DUdt4xqkTrJ/", None),
    CoveredSong("Rewrite the Stars", Some("The Greatest Showman"), None, "https://www.instagram.com/p/DUwcM-5j6xr/", None),
    CoveredSong("So Good", Some("Weston Estate"), None, "https://www.instagram.com/p/DVFF7lCjwHD/", None)
  ]

  /** `site` (src/content/site.ts), an immutable literal. */
  const Site: SiteContent := SiteContent(
    "Terence Dumas",
    "Original EP in progress • Weekly covers",
    "I'm currently a student at UT Austin studying Computer Science, Math and Robotics. Completely unrelated to school, music and video production are my favorite hobbies. I pride myself in doing everything from the ground up: I write, record, and produce my own songs and videos. As of right now, I am building an original EP (opener song out now). I also post weekly covers across Instagram, TikTok, and YouTube.",
    Streaming,
    Socials,
    WeeklyCovers,
    ImageAsset("/images/Cover.png", "Album cover art"),
    EP("Myself First - EP roadmap",
      "Four tracks. Track 1 is out now — the next three are currently upcoming.",
      Tracks),
    "I release one cover per week across platforms. Everything you hear has been actually played by me, whether that is on the keyboard, guitar, or cajon. Most of the times, all the instruments you hear are visible in the video as a camera angle, except for harmonies. Below is a running index linked to the Instagram post for each cover.",
    CoverIndex)

  // ---------------------------------------------------------------------------
  // Invariants of the content, stated for any content value

  function Platforms(chs: seq<WeeklyCoverChannel>): (r: seq<CoverPlatform>)
    ensures |r| == |chs|
    ensures forall i :: 0 <= i < |chs| ==> r[i] == chs[i].platform
  {
    seq(|chs|, i requires 0 <= i < |chs| => chs[i].platform)
  }

  /** No platform has two weekly channels. */
  predicate DistinctPlatforms(chs: seq<WeeklyCoverChannel>) {
    forall i, j :: 0 <= i < j < |chs| ==> chs[i].platform != chs[j].platform
  }

  /** Each cover platform has exactly one weekly channel. */
  predicate OnePerPlatform(chs: seq<WeeklyCoverChannel>) {
    && DistinctPlatforms(chs)
    && (forall p: CoverPlatform :: p in Platforms(chs))
  }

  /** An upcoming track carries no listening or video link. */
  predicate LinksOnlyWhenOut(tracks: seq<EPTrack>) {
    forall i :: 0 <= i < |tracks| && tracks[i].status == Upcoming ==>
      tracks[i].spotifyUrl == None && tracks[i].appleMusicUrl == None && tracks[i].visualVideoUrl == None
  }

  predicate DistinctTitles(covers: seq<CoveredSong>) {
    forall i, j :: 0 <= i < j < |covers| ==> covers[i].title != covers[j].title
  }

  predicate DistinctPosts(covers: seq<CoveredSong>) {
    forall i, j :: 0 <= i < j < |covers| ==> covers[i].instagramPostUrl != covers[j].instagramPostUrl
  }

  /** No title holds a hyphen, so the hyphen that joins a tile key's title to
      its post URL is the first one in the key. */
  predicate TitlesWithoutHyphen(covers: seq<CoveredSong>) {
    forall i :: 0 <= i < |covers| ==> '-' !in covers[i].title
  }

  const InstagramPostPrefix: string := "https://www.instagram.com/p/"

  predicate PostsOnInstagram(covers: seq<CoveredSong>) {
    forall i :: 0 <= i < |covers| ==> InstagramPostPrefix <= covers[i].instagramPostUrl
  }

  /** The content invariants the pages rely on. */
  predicate WellFormed(s: SiteContent) {
    && OnePerPlatform(s.weeklyCovers)
    && LinksOnlyWhenOut(s.ep.tracks)
    && DistinctTitles(s.coverIndex)
    && DistinctPosts(s.coverIndex)
    && TitlesWithoutHyphen(s.coverIndex)
    && PostsOnInstagram(s.coverIndex)
  }

  function Labels(links: seq<SocialLink>): (r: seq<string>)
    ensures |r| == |links|
    ensures forall i :: 0 <= i < |links| ==> r[i] == links[i].linkLabel
  {
    seq(|links|, i requires 0 <= i < |links| => links[i].linkLabel)
  }

  /** The positions of the covers that have a full video. */
  function WithVideo(covers: seq<CoveredSong>): (r: set<nat>)
    ensures forall i: nat :: i in r <==> i < |covers| && Present(covers[i].youtubeUrl)
  {
    set i: nat | i < |covers| && Present(covers[i].youtubeUrl)
  }

  /** The positions of the covers that feature a guest. */
  function WithGuest(covers: seq<CoveredSong>): (r: set<nat>)
    ensures forall i: nat :: i in r <==> i < |covers| && Present(covers[i].featuring)
  {
    set i: nat | i < |covers| && Present(covers[i].featuring)
  }

  // ---------------------------------------------------------------------------
  // Titles and post URLs of a cover index

  function Titles(covers: seq<CoveredSong>): (r: seq<string>)
    ensures |r| == |covers|
    ensures forall i :: 0 <= i < |covers| ==> r[i] == covers[i].title
  {
    seq(|covers|, i requires 0 <= i < |covers| => covers[i].title)
  }

  function Posts(covers: seq<CoveredSong>): (r: seq<string>)
    ensures |r| == |covers|
    ensures forall i :: 0 <= i < |covers| ==> r[i] == covers[i].instagramPostUrl
  {
    seq(|covers|, i requires 0 <= i < |covers| => covers[i].instagramPostUrl)
  }

  /** The titles of the cover index, oldest first. This list and the next
      repeat the data of `CoverIndex`; they are a proof device only:
      `IndexTitleList` and `IndexPostList` prove them equal to
      `Titles(CoverIndex)` and `Posts(CoverIndex)`, and the distinctness
      and shape facts are then proved over these plain string lists, which
      is much cheaper for the verifier than over the records. */
  const IndexTitles: seq<string> := [
    "Next Summer", "Mon Amour", "Glimpse of Us", "The A Team", "Lucky", "Yesterday", "The Vow",
    "Break My Heart Again", "I'd Rather Pretend", "Photograph", "Who Knows", "Wherever You Go",
    "Sparks", "Someone You Loved", "Don't Want a Love Song", "All I Ask", "Ponyo",
    "Rewrite the Stars", "So Good"
  ]

  /** The Instagram posts of the cover index, oldest first. */
  const IndexPosts: seq<string> := [
    "https://www.instagram.com/p/DPo3vKyElJi/", "https://www.instagram.com/p/DQpGjV_gK-h/",
    "https://www.instagram.com/p/DQuQcqGEWz5/", "https://www.instagram.com/p/DQ7ER-EEQAB/",
    "https://www.instagram.com/p/DRNDKzwER3s/", "https://www.instagram.com/p/DRfR5hgj9wb/",
    "https://www.instagram.com/p/DRz0dcJEWM9/", "https://www.instagram.com/p/DSDQRU5kSjF/",
    "https://www.instagram.com/p/DSVPR9tkcKG/", "https://www.instagram.com/p/DSoHjx0CLO0/",
    "https://www.instagram.com/p/DS0xzwQDwWA/", "https://www.instagram.com/p/DTHA0zxDBDY/",
    "https://www.instagram.com/p/DTZEO7hjIw9/", "https://www.instagram.com/p/DTrCSCcD91S/",
    "https://www.instagram.com/p/DT8_hB4j6-h/", "https://www.instagram.com/p/DUPGAUaD8TJ/",
    "https://www.instagram.com/p/DUdt4xqkTrJ/", "https://www.instagram.com/p/DUwcM-5j6xr/",
    "https://www.instagram.com/p/DVFF7lCjwHD/"
  ]

  // ---------------------------------------------------------------------------
  // What holds of the `site` literal

  /** The fields of `site` that the pages read, by name. */
  lemma SiteParts()
    ensures Site.streaming == Streaming
    ensures Site.socials == Socials
    ensures Site.weeklyCovers == WeeklyCovers
    ensures Site.ep.tracks == Tracks
    ensures Site.coverIndex == CoverIndex
  {
  }

  lemma IndexTitleList()
    ensures Titles(CoverIndex) == IndexTitles
  {
  }

  lemma IndexPostList()
    ensures Posts(CoverIndex) == IndexPosts
  {
  }

  lemma IndexTitlesDistinct()
    ensures forall i, j :: 0 <= i < j < |IndexTitles| ==> IndexTitles[i] != IndexTitles[j]
  {
  }

  lemma IndexTitlesWithoutHyphen()
    ensures forall i :: 0 <= i < |IndexTitles| ==> '-' !in IndexTitles[i]
  {
    assert forall i :: 0 <= i < 10 ==> '-' !in IndexTitles[i];
    assert forall i :: 10 <= i < 19 ==> '-' !in IndexTitles[i];
  }

  /** Nineteen covers with pairwise distinct titles, none holding a hyphen. */
  lemma IndexTitlesHold()
    ensures |CoverIndex| == 19
    ensures DistinctTitles(CoverIndex)
    ensures TitlesWithoutHyphen(CoverIndex)
  {
    IndexTitleList();
    IndexTitlesDistinct();
    IndexTitlesWithoutHyphen();
  }

  /** The cover posts are pairwise distinct Instagram post URLs. */
  lemma IndexPostsHold()
    ensures DistinctPosts(CoverIndex)
    ensures PostsOnInstagram(CoverIndex)
  {
    IndexPostList();
    IndexPostsDistinct();
    IndexPostsPrefixed();
  }

  lemma IndexPostsDistinct()
    ensures forall i, j :: 0 <= i < j < |IndexPosts| ==> IndexPosts[i] != IndexPosts[j]
  {
  }

  lemma IndexPostsPrefixed()
    ensures forall i :: 0 <= i < |IndexPosts| ==> InstagramPostPrefix <= IndexPosts[i]
  {
    assert forall i :: 0 <= i < 7 ==> InstagramPostPrefix <= IndexPosts[i];
    assert forall i :: 7 <= i < 13 ==> InstagramPostPrefix <= IndexPosts[i];
    assert forall i :: 13 <= i < 19 ==> InstagramPostPrefix <= IndexPosts[i];
  }

  /** One weekly channel per platform, in the order Instagram, TikTok, YouTube Shorts. */
  lemma ChannelsInOrder()
    ensures Platforms(WeeklyCovers) == [Instagram, TikTok, YouTubeShorts]
    ensures OnePerPlatform(WeeklyCovers)
  {
    assert Platforms(WeeklyCovers) == [Instagram, TikTok, YouTubeShorts];
    forall p: CoverPlatform ensures p in Platforms(WeeklyCovers) {
      match p
      case Instagram => assert Platforms(WeeklyCovers)[0] == p;
      case TikTok => assert Platforms(WeeklyCovers)[1] == p;
      case YouTubeShorts => assert Platforms(WeeklyCovers)[2] == p;
    }
  }

  /** Four tracks; only the first is out, and only the first carries links. */
  lemma TracksHold()
    ensures |Tracks| == 4
    ensures forall i :: 0 <= i < 4 ==> (Tracks[i].status == OutNow <==> i == 0)
    ensures Present(Tracks[0].spotifyUrl) && Present(Tracks[0].appleMusicUrl) && Present(Tracks[0].visualVideoUrl)
    ensures forall i :: 1 <= i < 4 ==>
      Tracks[i].spotifyUrl == None && Tracks[i].appleMusicUrl == None && Tracks[i].visualVideoUrl == None
    ensures LinksOnlyWhenOut(Tracks)
  {
  }

  /** The content invariants hold of `site`. */
  lemma SiteIsWellFormed()
    ensures WellFormed(Site)
  {
    SiteParts();
    ChannelsInOrder();
    TracksHold();
    IndexTitlesHold();
    IndexPostsHold();
  }

  /** The labels of the streaming and social links, in stored order. */
  lemma LinkLabels()
    ensures Labels(Streaming) == ["Spotify", "Apple Music"]
    ensures Labels(Socials) == ["Instagram", "TikTok", "YouTube"]
  {
  }

  lemma VideoPositions()
    ensures |CoverIndex| == 19
    ensures forall i :: 0 <= i < 19 ==> (Present(CoverIndex[i].youtubeUrl) <==> i in {0, 1, 6, 13})
  {
  }

  /** Four covers have a full video. */
  lemma IndexVideos()
    ensures WithVideo(CoverIndex) == {0, 1, 6, 13}
    ensures |WithVideo(CoverIndex)| == 4
  {
    VideoPositions();
  }

  lemma GuestPosition()
    ensures |CoverIndex| == 19
    ensures forall i :: 0 <= i < 19 ==> (Present(CoverIndex[i].featuring) <==> i == 6)
    ensures CoverIndex[6].featuring == Some("Robin Dumas")
  {
  }

  /** Only "The Vow" features a guest. */
  lemma IndexGuests()
    ensures forall i :: 0 <= i < |CoverIndex| ==>
      (Present(CoverIndex[i].featuring) <==> CoverIndex[i].title == "The Vow")
    ensures WithGuest(CoverIndex) == {6}
  {
    IndexTitleList();
    GuestPosition();
  }
}
