/** What the covers page (src/app/covers/page.tsx) selects from the content
    for display: one card per weekly-cover channel, the cover count, and the
    grid of cover tiles, newest first, with their badges, links, background
    image and React key. Markup and styling are not modelled; a tile is the
    record of what it shows. */
module CoversPage {
  import opened Wrappers
  import opened Content
  import opened Slug

  // ---------------------------------------------------------------------------
  // Weekly-cover channel cards

  /** A channel card: its React key, its heading, its text and the href of
      its "View" link. */
  datatype ChannelCard = ChannelCard(key: string, heading: string, description: string, view: string)

  function ChannelCardOf(c: WeeklyCoverChannel): ChannelCard {
    ChannelCard(PlatformName(c.platform), PlatformName(c.platform), c.description, c.href)
  }

  /** One card per channel, in stored order, keyed and headed by the
      platform's name, with the channel's text and link passed through. */
  function ChannelCards(chs: seq<WeeklyCoverChannel>): (r: seq<ChannelCard>)
    ensures |r| == |chs|
    ensures forall i :: 0 <= i < |chs| ==>
      && ParsePlatform(r[i].key) == Some(chs[i].platform)
      && r[i].heading == r[i].key
      && r[i].description == chs[i].description
      && r[i].view == chs[i].href
  {
    seq(|chs|, i requires 0 <= i < |chs| =>
      (PlatformNamesRoundTrip(chs[i].platform, "");
       ChannelCardOf(chs[i])))
  }

  /** Channels on distinct platforms get distinct React keys. */
  lemma ChannelKeysUnique(chs: seq<WeeklyCoverChannel>)
    requires DistinctPlatforms(chs)
    ensures forall i, j :: 0 <= i < j < |chs| ==> ChannelCards(chs)[i].key != ChannelCards(chs)[j].key
  {
    var r := ChannelCards(chs);
    forall i, j | 0 <= i < j < |chs|
      ensures r[i].key != r[j].key
    {
      assert ParsePlatform(r[i].key) != ParsePlatform(r[j].key);
    }
  }

  // ---------------------------------------------------------------------------
  // The reversed copy of the cover index

  /** `[...xs].reverse()`: a reversed copy; the original is not touched, as
      every value here is immutable. */
  function Reverse<T>(xs: seq<T>): (r: seq<T>)
    ensures |r| == |xs|
    ensures forall i :: 0 <= i < |xs| ==> r[i] == xs[|xs| - 1 - i]
  {
    seq(|xs|, i requires 0 <= i < |xs| => xs[|xs| - 1 - i])
  }

  /** Reversing the copy again gives back the original order. */
  lemma ReverseInvolution<T>(xs: seq<T>)
    ensures Reverse(Reverse(xs)) == xs
  {
    var r := Reverse(Reverse(xs));
    assert forall i :: 0 <= i < |xs| ==> r[i] == xs[i];
  }

  /** The reversed copy holds the same entries, each as often. */
  lemma {:induction false} ReversePermutes<T>(xs: seq<T>)
    ensures multiset(Reverse(xs)) == multiset(xs)
  {
    if xs != [] {
      ReversePermutes(xs[1..]);
      assert xs == [xs[0]] + xs[1..];
      assert Reverse(xs) == Reverse(xs[1..]) + [xs[0]];
    }
  }

  // ---------------------------------------------------------------------------
  // Cover tiles

  /** A tile's link buttons. */
  datatype TileLink = InstagramPost(href: string) | YouTubeVideo(href: string)

  /** What a cover tile shows: its React key, its background image, whether
      its border and overlay are the emphasised ones, the "full video" badge,
      the text of the "feat." badge, the title, the artist line and the link
      buttons, in order. */
  datatype TileView = TileView(
    key: string,
    image: string,
    emphasized: bool,
    fullVideo: bool,
    feat: Option<string>,
    title: string,
    artistLine: Option<string>,
    links: seq<TileLink>)

  /** The React key `${title}-${instagramPostUrl}`. */
  function TileKey(c: CoveredSong): (k: string)
    ensures |k| == |c.title| + 1 + |c.instagramPostUrl|
    ensures k[..|c.title|] == c.title && k[|c.title|] == '-'
    ensures k[|c.title| + 1..] == c.instagramPostUrl
  {
    c.title + "-" + c.instagramPostUrl
  }

  /** The first hyphen of a key holds the title apart from the post URL. */
  lemma KeyInjective(c: CoveredSong, d: CoveredSong)
    requires '-' !in c.title && '-' !in d.title
    ensures TileKey(c) == TileKey(d) <==> c.title == d.title && c.instagramPostUrl == d.instagramPostUrl
  {
    var k, m := TileKey(c), TileKey(d);
    if k == m {
      assert |c.title| == |d.title|;
      assert c.title == k[..|c.title|];
      assert c.instagramPostUrl == k[|c.title| + 1..];
    }
  }

  /** Where the YouTube link goes, when there is one. */
  function VideoLinks(c: CoveredSong): (r: seq<TileLink>)
  {
    if Present(c.youtubeUrl) then [YouTubeVideo(c.youtubeUrl.value)] else []
  }

  /** The tile of one cover: keyed by title and post, with the image its
      title's slug names; the "full video" badge, the emphasised style and the
      YouTube link all hang on the video URL, the "feat." badge on the guest,
      the artist line on the artist. */
  function Tile(c: CoveredSong): (t: TileView)
    ensures t.key == TileKey(c)
    ensures t.image == CoverImagePath(c.title)
    ensures t.fullVideo <==> Present(c.youtubeUrl)
    ensures t.emphasized == t.fullVideo
    ensures t.feat.Some? <==> Present(c.featuring)
    ensures t.feat.Some? ==> t.feat.value == "feat. " + c.featuring.value
    ensures t.artistLine.Some? <==> Present(c.artist)
    ensures t.artistLine.Some? ==> t.artistLine.value == c.artist.value
    ensures t.title == c.title
    ensures 1 <= |t.links| <= 2
    ensures t.links[0] == InstagramPost(c.instagramPostUrl)
    ensures |t.links| == 2 <==> Present(c.youtubeUrl)
    ensures |t.links| == 2 ==> t.links[1] == YouTubeVideo(c.youtubeUrl.value)
  {
    var video := Present(c.youtubeUrl);
    TileView(
      TileKey(c),
      CoverImagePath(c.title),
      video,
      video,
      if Present(c.featuring) then Some("feat. " + c.featuring.value) else None,
      c.title,
      if Present(c.artist) then Some(c.artist.value) else None,
      [InstagramPost(c.instagramPostUrl)] + VideoLinks(c))
  }

  /** Every link a tile shows goes to one of the cover's own URLs, and every
      URL the cover has (counting an empty one as missing) gets a link. */
  lemma TileLinksAreTheCoversUrls(c: CoveredSong)
    ensures forall l :: l in Tile(c).links ==>
      (l.InstagramPost? && l.href == c.instagramPostUrl)
      || (l.YouTubeVideo? && Present(c.youtubeUrl) && l.href == c.youtubeUrl.value)
    ensures InstagramPost(c.instagramPostUrl) in Tile(c).links
    ensures Present(c.youtubeUrl) <==> exists l :: l in Tile(c).links && l.YouTubeVideo?
  {
    var t := Tile(c);
    assert t.links == [InstagramPost(c.instagramPostUrl)] + VideoLinks(c);
  }

  // ---------------------------------------------------------------------------
  // The grid

  /** The tiles, newest cover first: the reversed copy of the index, mapped. */
  function CoversGrid(coverIndex: seq<CoveredSong>): (r: seq<TileView>)
    ensures |r| == |coverIndex|
    ensures forall i :: 0 <= i < |r| ==> r[i] == Tile(coverIndex[|coverIndex| - 1 - i])
  {
    var shown := Reverse(coverIndex);
    seq(|shown|, i requires 0 <= i < |shown| => Tile(shown[i]))
  }

  /** The "N total" count above the grid. */
  function CoverCount(coverIndex: seq<CoveredSong>): (n: nat)
    ensures n == |CoversGrid(coverIndex)|
  {
    |coverIndex|
  }

  /** Tile `i` shows the "full video" badge exactly when the cover it shows
      (position n-1-i, counted from the oldest) has a video, and the "feat."
      badge exactly when that cover features a guest. */
  lemma GridBadges(coverIndex: seq<CoveredSong>)
    ensures forall i :: 0 <= i < |coverIndex| ==>
      (CoversGrid(coverIndex)[i].fullVideo <==> |coverIndex| - 1 - i in WithVideo(coverIndex))
    ensures forall i :: 0 <= i < |coverIndex| ==>
      (CoversGrid(coverIndex)[i].feat.Some? <==> |coverIndex| - 1 - i in WithGuest(coverIndex))
  {
  }

  /** The tiles' React keys are pairwise distinct when the posts are and no
      title holds a hyphen. */
  lemma GridKeysUnique(coverIndex: seq<CoveredSong>)
    requires TitlesWithoutHyphen(coverIndex)
    requires DistinctPosts(coverIndex)
    ensures forall i, j :: 0 <= i < j < |coverIndex| ==>
      CoversGrid(coverIndex)[i].key != CoversGrid(coverIndex)[j].key
  {
    var g, n := CoversGrid(coverIndex), |coverIndex|;
    forall i, j | 0 <= i < j < n
      ensures g[i].key != g[j].key
    {
      KeyInjective(coverIndex[n - 1 - i], coverIndex[n - 1 - j]);
    }
  }

  /** The tiles of the covers in stored order, oldest first. */
  function TilesInIndexOrder(coverIndex: seq<CoveredSong>): (r: seq<TileView>)
    ensures |r| == |coverIndex|
    ensures forall i :: 0 <= i < |coverIndex| ==> r[i] == Tile(coverIndex[i])
  {
    seq(|coverIndex|, i requires 0 <= i < |coverIndex| => Tile(coverIndex[i]))
  }

  /** The grid shows every cover of the index exactly once: it is the stored
      order of tiles turned around, so it holds the same tiles, each as often. */
  lemma GridShowsEveryCover(coverIndex: seq<CoveredSong>)
    ensures CoversGrid(coverIndex) == Reverse(TilesInIndexOrder(coverIndex))
    ensures multiset(CoversGrid(coverIndex)) == multiset(TilesInIndexOrder(coverIndex))
  {
    ReversePermutes(TilesInIndexOrder(coverIndex));
  }
}
