/** The covers page over the site's own cover index: the slugs, and so the
    image paths, of its titles, and the grid it shows. Each title is printable
    ASCII with single spaces, so its slug is read off character by character
    (`Slug.SlugOfPrintableTitle`). */
module SiteCovers {
  import opened Wrappers
  import opened Content
  import opened Slug
  import opened CoversPage

  /** The slug of each title of the cover index, oldest first. */
  const IndexSlugs: seq<string> := [
    "next-summer", "mon-amour", "glimpse-of-us", "the-a-team",
    "lucky", "yesterday", "the-vow", "break-my-heart-again",
    "i-d-rather-pretend", "photograph", "who-knows", "wherever-you-go",
    "sparks", "someone-you-loved", "don-t-want-a-love-song", "all-i-ask",
    "ponyo", "rewrite-the-stars", "so-good"
  ]

  /** Where the spaces of each title of the cover index are. */
  const IndexGaps: seq<set<int>> := [
    {4}, {3}, {7, 10}, {3, 5}, {}, {},
    {3}, {5, 8, 14}, {3, 10}, {}, {3}, {8, 12},
    {}, {7, 11}, {5, 10, 12, 17}, {3, 5}, {}, {7, 11},
    {2}
  ]

  // One lemma per title of the cover index, oldest first (nineteen in all).
  // Each checks the characters of one title against its slug and gaps by
  // evaluating `SpelledAs` on that literal alone; `IndexSpelled` combines
  // them, and `Slug.SlugOfPrintableTitle` turns each into the title's slug.

  lemma NextSummerSpelling(t: string)
    requires t == "Next Summer"
    ensures SpelledAs(t, "next-summer", {4})
  {
  }

  lemma MonAmourSpelling(t: string)
    requires t == "Mon Amour"
    ensures SpelledAs(t, "mon-amour", {3})
  {
  }

  lemma GlimpseOfUsSpelling(t: string)
    requires t == "Glimpse of Us"
    ensures SpelledAs(t, "glimpse-of-us", {7, 10})
  {
  }

  lemma TheATeamSpelling(t: string)
    requires t == "The A Team"
    ensures SpelledAs(t, "the-a-team", {3, 5})
  {
  }

  lemma LuckySpelling(t: string)
    requires t == "Lucky"
    ensures SpelledAs(t, "lucky", {})
  {
  }

  lemma YesterdaySpelling(t: string)
    requires t == "Yesterday"
    ensures SpelledAs(t, "yesterday", {})
  {
  }

  lemma TheVowSpelling(t: string)
    requires t == "The Vow"
    ensures SpelledAs(t, "the-vow", {3})
  {
  }

  lemma BreakMyHeartAgainSpelling(t: string)
    requires t == "Break My Heart Again"
    ensures SpelledAs(t, "break-my-heart-again", {5, 8, 14})
  {
  }

  lemma IdRatherPretendSpelling(t: string)
    requires t == "I'd Rather Pretend"
    ensures SpelledAs(t, "i-d-rather-pretend", {3, 10})
  {
  }

  lemma PhotographSpelling(t: string)
    requires t == "Photograph"
    ensures SpelledAs(t, "photograph", {})
  {
  }

  lemma WhoKnowsSpelling(t: string)
    requires t == "Who Knows"
    ensures SpelledAs(t, "who-knows", {3})
  {
  }

  lemma WhereverYouGoSpelling(t: string)
    requires t == "Wherever You Go"
    ensures SpelledAs(t, "wherever-you-go", {8, 12})
  {
  }

  lemma SparksSpelling(t: string)
    requires t == "Sparks"
    ensures SpelledAs(t, "sparks", {})
  {
  }

  lemma SomeoneYouLovedSpelling(t: string)
    requires t == "Someone You Loved"
    ensures SpelledAs(t, "someone-you-loved", {7, 11})
  {
  }

  lemma DontWantALoveSongSpelling(t: string)
    requires t == "Don't Want a Love Song"
    ensures SpelledAs(t, "don-t-want-a-love-song", {5, 10, 12, 17})
  {
  }

  lemma AllIAskSpelling(t: string)
    requires t == "All I Ask"
    ensures SpelledAs(t, "all-i-ask", {3, 5})
  {
  }

  lemma PonyoSpelling(t: string)
    requires t == "Ponyo"
    ensures SpelledAs(t, "ponyo", {})
  {
  }

  lemma RewriteTheStarsSpelling(t: string)
    requires t == "Rewrite the Stars"
    ensures SpelledAs(t, "rewrite-the-stars", {7, 11})
  {
  }

  lemma SoGoodSpelling(t: string)
    requires t == "So Good"
    ensures SpelledAs(t, "so-good", {2})
  {
  }

  lemma IndexSpelled()
    ensures |IndexSlugs| == |IndexGaps| == |IndexTitles|
    ensures forall i :: 0 <= i < |IndexTitles| ==> SpelledAs(IndexTitles[i], IndexSlugs[i], IndexGaps[i])
  {
    NextSummerSpelling(IndexTitles[0]);
    MonAmourSpelling(IndexTitles[1]);
    GlimpseOfUsSpelling(IndexTitles[2]);
    TheATeamSpelling(IndexTitles[3]);
    LuckySpelling(IndexTitles[4]);
    YesterdaySpelling(IndexTitles[5]);
    TheVowSpelling(IndexTitles[6]);
    BreakMyHeartAgainSpelling(IndexTitles[7]);
    IdRatherPretendSpelling(IndexTitles[8]);
    PhotographSpelling(IndexTitles[9]);
    WhoKnowsSpelling(IndexTitles[10]);
    WhereverYouGoSpelling(IndexTitles[11]);
    SparksSpelling(IndexTitles[12]);
    SomeoneYouLovedSpelling(IndexTitles[13]);
    DontWantALoveSongSpelling(IndexTitles[14]);
    AllIAskSpelling(IndexTitles[15]);
    PonyoSpelling(IndexTitles[16]);
    RewriteTheStarsSpelling(IndexTitles[17]);
    SoGoodSpelling(IndexTitles[18]);
  }

  lemma IndexGapsApart()
    ensures forall i, k :: 0 <= i < |IndexGaps| && k in IndexGaps[i] ==> k + 1 !in IndexGaps[i]
  {
  }

  lemma IndexSlugsDistinct()
    ensures forall i, j :: 0 <= i < j < |IndexSlugs| ==> IndexSlugs[i] != IndexSlugs[j]
  {
  }

  /** `slugifyTitle` maps the cover index's titles onto `IndexSlugs`. */
  lemma IndexSlugsHold()
    ensures |IndexSlugs| == |IndexTitles|
    ensures forall i :: 0 <= i < |IndexTitles| ==> Slugify(IndexTitles[i]) == IndexSlugs[i]
  {
    IndexSpelled();
    IndexGapsApart();
    forall i | 0 <= i < |IndexTitles|
      ensures Slugify(IndexTitles[i]) == IndexSlugs[i]
    {
      SlugOfPrintableTitle(IndexTitles[i], IndexSlugs[i], IndexGaps[i]);
    }
  }

  /** Every cover of the index gets its own background image: no two titles
      of the index share a slug, hence an image path. */
  lemma IndexImagePathsDistinct()
    ensures forall i :: 0 <= i < |CoverIndex| ==> Slugify(CoverIndex[i].title) == IndexSlugs[i]
    ensures forall i, j :: 0 <= i < j < |CoverIndex| ==>
      Slugify(CoverIndex[i].title) != Slugify(CoverIndex[j].title)
    ensures forall i, j :: 0 <= i < j < |CoverIndex| ==>
      CoverImagePath(CoverIndex[i].title) != CoverImagePath(CoverIndex[j].title)
  {
    IndexTitleList();
    IndexSlugsHold();
    IndexSlugsDistinct();
    forall i, j | 0 <= i < j < |CoverIndex|
      ensures CoverImagePath(CoverIndex[i].title) != CoverImagePath(CoverIndex[j].title)
    {
      ImagePathsFollowSlugs(CoverIndex[i].title, CoverIndex[j].title);
    }
  }

  /** The EP's first title: its apostrophe becomes a hyphen of its own. */
  lemma ItCantUnderstandSlug(t: string)
    requires t == "It Can't Understand"
    ensures Slugify(t) == "it-can-t-understand"
  {
    assert SpelledAs(t, "it-can-t-understand", {2, 8});
    SlugOfPrintableTitle(t, "it-can-t-understand", {2, 8});
  }

  /** Nineteen covers with videos at 0, 1, 6 and 13 and a guest at 6 give,
      newest first, video badges at 5, 12, 17 and 18 and a guest badge at 12. */
  lemma NineteenTiles(ci: seq<CoveredSong>)
    requires |ci| == 19
    requires forall i :: 0 <= i < 19 ==> (Present(ci[i].youtubeUrl) <==> i in {0, 1, 6, 13})
    requires forall i :: 0 <= i < 19 ==> (Present(ci[i].featuring) <==> i == 6)
    ensures forall i :: 0 <= i < 19 ==> (CoversGrid(ci)[i].fullVideo <==> i in {5, 12, 17, 18})
    ensures forall i :: 0 <= i < 19 ==> (CoversGrid(ci)[i].feat.Some? <==> i == 12)
  {
  }

  /** The grid of the site's cover index: nineteen tiles, newest first; the
      "full video" badge on tiles 5, 12, 17 and 18, the only "feat." badge on
      tile 12, and every tile with its own key and its own image. */
  lemma IndexGrid()
    ensures CoverCount(CoverIndex) == |CoversGrid(CoverIndex)| == 19
    ensures CoversGrid(CoverIndex)[0].title == "So Good"
    ensures CoversGrid(CoverIndex)[18].title == "Next Summer"
    ensures forall i :: 0 <= i < 19 ==> (CoversGrid(CoverIndex)[i].fullVideo <==> i in {5, 12, 17, 18})
    ensures forall i :: 0 <= i < 19 ==> (CoversGrid(CoverIndex)[i].feat.Some? <==> i == 12)
    ensures CoversGrid(CoverIndex)[12].feat == Some("feat. Robin Dumas")
  {
    IndexTitleList();
    VideoPositions();
    GuestPosition();
    NineteenTiles(CoverIndex);
    assert "feat. " + "Robin Dumas" == "feat. Robin Dumas";
  }

  /** Every tile of the site's grid has its own key and its own image. */
  lemma IndexGridDistinct()
    ensures |CoversGrid(CoverIndex)| == 19
    ensures forall i, j :: 0 <= i < j < 19 ==> CoversGrid(CoverIndex)[i].key != CoversGrid(CoverIndex)[j].key
    ensures forall i, j :: 0 <= i < j < 19 ==> CoversGrid(CoverIndex)[i].image != CoversGrid(CoverIndex)[j].image
  {
    IndexTitlesHold();
    IndexPostsHold();
    GridKeysUnique(CoverIndex);
    IndexImagePathsDistinct();
  }
}
