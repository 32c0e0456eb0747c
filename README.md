# Terence Dumas music site: a verified model of its content and page logic

The site has two pages, both built from one immutable content value, `site`, in
`src/content/site.ts`. The home page shows the artist's links, the EP roadmap
and quick links to the weekly covers. The covers page shows one card per
weekly-cover channel and a grid of cover tiles, newest first. Each tile has a
background image whose file name is derived from the cover's title.

This project models three pieces of that logic in Dafny:

- the content store;
- the title-to-image-path slug;
- the view-model selection rules of both pages.

Every rule is a pure function from content to abstract view records: a tile, a
track card, a link. Markup and styling are not modelled.

Modules:

- `Wrappers`: `Option`, for the record fields the source marks optional.
- `Content` (`content.dfy`): the record types of `site.ts` and the enumerations
  `CoverPlatform` and `EPTrackStatus`, each as a closed datatype with its string
  literals.
  - `Site` is the `site` literal, data copied exactly. `Streaming`, `Socials`,
    `WeeklyCovers`, `Tracks` and `CoverIndex` are its parts, and `SiteParts`
    ties them to `Site`.
  - The content invariants are stated for any content value (`WellFormed`) and
    proved of `site`.
  - A `CoveredSong` always has an `instagramPostUrl`. `artist`, `featuring` and
    `youtubeUrl` are `Option`s.
- `Slug` (`slug.dfy`): `slugifyTitle` as its three steps (lower-case, every `'`
  to `-`, every whitespace run to one `-`), the image path built from the slug,
  and what these guarantee.
- `CoversPage` (`covers_page.dfy`): channel cards, the reversed copy of the
  cover index, tiles with their badges, links, image and key, the grid, and the
  cover count.
- `SiteCovers` (`site_covers.dfy`): the covers page over the site's own cover
  index: every title's slug, distinct images, distinct keys, and where the
  badges fall.
- `HomePage` (`home_page.dfy`): link rows and their icons, EP track cards
  (numbering, status styling, action buttons, keys), and the weekly-cover quick
  links.

The site-level lemmas of `CoversPage`, `SiteCovers` and `HomePage` are stated on
the parts of `Site` (`CoverIndex`, `Tracks`, `Streaming`, `Socials`,
`WeeklyCovers`). `Content.SiteParts` proves these are the fields the pages read.
They are stated on the parts rather than on `Site` because every proof that
mentions `Site` has to take in the whole literal.

JavaScript truthiness of an optional string (`c.youtubeUrl ? … : null`) is
`Content.Present`: a field that is absent and a field holding `""` both count as
missing.

Case folding is modelled for the ASCII letters `A`–`Z` only. Whitespace is the
full ECMAScript `\s` class.

The apostrophe step replaces only the ASCII `'`, as the source's `/'/g` does. A
typographic `’` is left in the slug.

An apostrophe becomes its own hyphen, so "It Can't Understand" gives
`it-can-t-understand`, not `it-cant-understand`; see
`SiteCovers.ItCantUnderstandSlug`.

## Data

The record types and the content value are not functions, so they are listed
here rather than in the table below.

| datatype or constant | source | models |
|---|---|---|
| Content.SocialLink | src/content/site.ts:1-4 | a labelled link; `label` is named `linkLabel` |
| Content.CoverPlatform | src/content/site.ts:6 | the three platform literals, as a closed datatype |
| Content.WeeklyCoverChannel | src/content/site.ts:8-12 | platform, description and href of a weekly-cover channel |
| Content.EPTrackStatus | src/content/site.ts:14 | the two status literals, as a closed datatype |
| Content.EPTrack | src/content/site.ts:16-23 | a track; the three optional URLs are `Option`s |
| Content.EP | src/content/site.ts:25-29 | the EP's title, description and tracks |
| Content.ImageAsset | src/content/site.ts:31-34 | an image's source and alt text |
| Content.CoveredSong | src/content/site.ts:36-42 | a cover; `artist`, `featuring` and `youtubeUrl` are `Option`s |
| Content.SiteContent | src/content/site.ts:44-157 | the shape of `site` |
| Content.Site | src/content/site.ts:44-157 | the `site` literal, every string as written |

## Model

| member | source | states |
|---|---|---|
| Content.PlatformName | src/content/site.ts:6 | the literal of each platform; `Content.PlatformNamesRoundTrip` states it is the one `ParsePlatform` reads back |
| Content.ParsePlatform | src/content/site.ts:6 | exactly the three strings "Instagram", "TikTok", "YouTube Shorts" are platforms |
| Content.PlatformNamesRoundTrip | src/content/site.ts:6 | each platform has its own literal and reads back from it; a literal that reads as a platform is that platform's |
| Content.StatusText | src/content/site.ts:14 | the literal of each status; `Content.StatusTextsRoundTrip` states it is the one `ParseStatus` reads back |
| Content.ParseStatus | src/content/site.ts:14 | exactly "out now" and "upcoming" are statuses |
| Content.StatusTextsRoundTrip | src/content/site.ts:14 | each status has its own literal and reads back from it |
| Content.Present | src/app/covers/page.tsx:94 | JavaScript truthiness of an optional string: set and not empty; the truthiness tests at src/app/covers/page.tsx:112, 118, 123, 130, 136 and src/app/page.tsx:184, 189, 194 all use it |
| Content.SiteParts | src/content/site.ts:44-157 | the streaming, socials, weekly-cover, track and cover-index fields of `site` are the listed values |
| Content.ChannelsInOrder | src/content/site.ts:76-92 | the weekly channels are Instagram, TikTok, YouTube Shorts in that order, one per platform, every platform covered |
| Content.TracksHold | src/content/site.ts:103-129 | four tracks; only the first is out; it has all three links, the others none, and no track has a link unless it is out |
| Content.LinkLabels | src/content/site.ts:50-74 | streaming labels are ["Spotify", "Apple Music"], social labels ["Instagram", "TikTok", "YouTube"] |
| Content.IndexTitlesHold | src/content/site.ts:135-155 | nineteen covers, pairwise distinct titles, no title holding a hyphen |
| Content.IndexPostsHold | src/content/site.ts:136-154 | the Instagram post URLs are pairwise distinct and all start with "https://www.instagram.com/p/" |
| Content.IndexVideos | src/content/site.ts:136-154 | exactly the covers at 0, 1, 6 and 13 have a video: four in all |
| Content.IndexGuests | src/content/site.ts:136-154 | a cover features a guest iff it is "The Vow"; it is the only one |
| Content.SiteIsWellFormed | src/content/site.ts:44-157 | `site` meets every content invariant: one channel per platform, links only on out tracks, distinct titles and posts, hyphen-free titles, Instagram posts |
| Slug.Slugify | src/app/covers/page.tsx:9-14 | `slugifyTitle`, the three steps in order; its properties are stated by `Slug.SlugShape`, `SlugifyFixesSlugs`, `SlugifyIdempotent`, `LettersPassThrough`, `SlugifyWordThenRun`, `SlugifySingleSpaced` and `SlugOfPrintableTitle` below |
| Slug.Lower | src/app/covers/page.tsx:11 | same length; each upper-case letter becomes its lower-case letter, so none is left; every other character kept in place |
| Slug.ReplaceApostrophes | src/app/covers/page.tsx:12 | same length; no `'` left; a position holds `-` iff it held `'` or `-`; every other character kept in place |
| Slug.IsSpace | src/app/covers/page.tsx:13 | the characters of the ECMAScript `\s` class; used by `CollapseWhitespace` and `DropSpaces` |
| Slug.DropSpaces | src/app/covers/page.tsx:13 | the suffix after the leading whitespace: everything dropped is whitespace, and the rest does not start with it (how `\s+` takes a whole run) |
| Slug.ToLowerChar | src/app/covers/page.tsx:11 | the result is never upper-case; an upper-case letter moves to its lower-case letter, anything else is kept |
| Slug.CollapseWhitespace | src/app/covers/page.tsx:13 | the result holds no whitespace, only hyphens and input characters, and is no longer than the input |
| Slug.SlugShape | src/app/covers/page.tsx:9-14 | a slug has no upper-case letter, no apostrophe, no whitespace, and is no longer than the title |
| Slug.SlugifyFixesSlugs | src/app/covers/page.tsx:9-14 | a string with nothing for the three steps to do is its own slug |
| Slug.SlugifyIdempotent | src/app/covers/page.tsx:9-14 | slugifying a slug changes nothing |
| Slug.LettersPassThrough | src/app/covers/page.tsx:11-13 | the characters that are not whitespace, `'` or `-` reach the slug lower-cased and in order |
| Slug.SlugifyWordThenRun | src/app/covers/page.tsx:12-13 | a word, a whitespace run of any length, then the rest: one hyphen stands for the whole run |
| Slug.SlugifySingleSpaced | src/app/covers/page.tsx:12-13 | without adjacent whitespace the slug maps the title character by character and keeps its length; each `'` gives one `-` |
| Slug.SlugOfPrintableTitle | src/app/covers/page.tsx:9-14 | a printable ASCII title with single spaces slugifies to the string it is spelled as |
| Slug.CoverImagePath | src/app/covers/page.tsx:101 | the path is "/images/covers/", the slug, then "-web-500x307.webp", and the slug can be read back from it |
| Slug.ImagePathsFollowSlugs | src/app/covers/page.tsx:101 | two titles share an image path iff they share a slug |
| SiteCovers.IndexSlugsHold | src/app/covers/page.tsx:9-14 | the nineteen titles slugify to "next-summer" … "so-good", e.g. "don-t-want-a-love-song", "rewrite-the-stars" |
| SiteCovers.IndexImagePathsDistinct | src/app/covers/page.tsx:101 | no two covers of the index share a slug or an image path |
| SiteCovers.ItCantUnderstandSlug | src/app/covers/page.tsx:12 | "It Can't Understand" gives "it-can-t-understand" |
| SiteCovers.IndexGrid | src/app/covers/page.tsx:86-140 | 19 tiles, count 19, "So Good" first and "Next Summer" last; video badges exactly on tiles 5, 12, 17, 18; "feat. Robin Dumas" only on tile 12 |
| SiteCovers.IndexGridDistinct | src/app/covers/page.tsx:92-101 | every tile of the site's grid has its own key and its own image |
| CoversPage.ChannelCardOf | src/app/covers/page.tsx:71-79 | the card of one channel; `CoversPage.ChannelCards` states what it holds |
| CoversPage.ChannelCards | src/app/covers/page.tsx:71-79 | one card per channel in stored order, keyed and headed by its platform's literal, text and "View" href passed through |
| CoversPage.ChannelKeysUnique | src/app/covers/page.tsx:72 | channels on pairwise distinct platforms get pairwise distinct keys |
| CoversPage.Reverse | src/app/covers/page.tsx:90 | the copy has the same length, with entry i the original's entry n-1-i |
| CoversPage.ReverseInvolution | src/app/covers/page.tsx:90 | reversing the copy again gives the original order |
| CoversPage.ReversePermutes | src/app/covers/page.tsx:90 | the reversed copy is a permutation of the index |
| CoversPage.TileKey | src/app/covers/page.tsx:92 | the key is the title, a hyphen, then the post URL |
| CoversPage.KeyInjective | src/app/covers/page.tsx:92 | for hyphen-free titles, equal keys iff equal title and post URL |
| CoversPage.Tile | src/app/covers/page.tsx:91-141 | video badge, emphasised style and YouTube link iff the video URL is present; "feat. " + guest iff a guest; artist line iff an artist; Instagram link always first; image is the title's path |
| CoversPage.VideoLinks | src/app/covers/page.tsx:136-140 | the YouTube link, present iff the URL is truthy; stated through `CoversPage.Tile` and `TileLinksAreTheCoversUrls` |
| CoversPage.TileLinksAreTheCoversUrls | src/app/covers/page.tsx:132-140 | every link goes to one of the cover's own URLs; the post always has one; the video has one iff present |
| CoversPage.CoversGrid | src/app/covers/page.tsx:90 | one tile per cover, tile i showing cover n-1-i: newest first |
| CoversPage.CoverCount | src/app/covers/page.tsx:86 | the count shown equals the number of tiles |
| CoversPage.GridBadges | src/app/covers/page.tsx:118-127 | tile i has the video (guest) badge iff cover n-1-i has a video (guest) |
| CoversPage.GridKeysUnique | src/app/covers/page.tsx:92 | distinct posts and hyphen-free titles give pairwise distinct tile keys |
| CoversPage.TilesInIndexOrder | src/app/covers/page.tsx:91 | the tile of each cover in stored order, entry i the tile of cover i |
| CoversPage.GridShowsEveryCover | src/app/covers/page.tsx:90 | the grid is the tiles in stored order turned around, and holds exactly those tiles, each as often |
| HomePage.StreamingIconFor | src/app/page.tsx:100-104 | Spotify's icon iff the label is "Spotify", Apple Music's otherwise |
| HomePage.SocialIconFor | src/app/page.tsx:111-114 | Instagram's icon iff "Instagram", TikTok's iff "TikTok", YouTube's for every other label |
| HomePage.StreamingLinks | src/app/page.tsx:92-107 | one link per entry, in order, keyed and labelled by its label, href unchanged, icon by label |
| HomePage.SocialLinks | src/app/page.tsx:110-127 | one link per entry, in order, keyed and labelled by its label, href unchanged, icon by label |
| HomePage.LinkRowsRoundTrip | src/app/page.tsx:92-127 | the entries are recovered from the rendered labels and hrefs: nothing dropped, added or reordered |
| HomePage.Decimal | src/app/page.tsx:153 | a non-empty string of digits, with no leading zero unless it is "0" |
| HomePage.DecimalRoundTrip | src/app/page.tsx:153 | reading the numeral back gives the number |
| HomePage.NumeralKeyInjective | src/app/page.tsx:153 | a numeral-hyphen-text key determines its numeral and its text |
| HomePage.TrackKeysUnique | src/app/page.tsx:153 | the `${idx + 1}-${title}` keys are pairwise distinct whatever the titles |
| HomePage.Actions | src/app/page.tsx:182-200 | the buttons of a track; stated by `HomePage.UpcomingHasNoActions`, `ActionsGoToTheirUrls`, `OutActionsFollowUrls` and `ActionsInOrder` |
| HomePage.ButtonIf | src/app/page.tsx:184-198 | one button, with the URL as href, iff the URL is truthy |
| HomePage.UpcomingHasNoActions | src/app/page.tsx:182-200 | an upcoming track has no button, even with URLs |
| HomePage.ActionsGoToTheirUrls | src/app/page.tsx:184-198 | every button goes to the track's truthy URL of its own kind |
| HomePage.OutActionsFollowUrls | src/app/page.tsx:184-198 | on an out track, a Spotify (Apple Music, Visual Video) button is shown iff that URL is truthy |
| HomePage.ActionsInOrder | src/app/page.tsx:183-199 | at most three buttons, in the order Spotify, Apple Music, Visual Video, no kind twice |
| HomePage.ActionLabel | src/app/page.tsx:185-195 | the aria label of each button: "Spotify", "Apple Music", "Visual Video (YouTube)"; `HomePage.ActionLabelsDistinct` states no two kinds share one |
| HomePage.ActionLabelsDistinct | src/app/page.tsx:185-195 | the three button labels are distinct |
| HomePage.TrackCard | src/app/page.tsx:149-200 | the card at position idx is keyed by numeral idx + 1, a hyphen and the title, and numbered idx + 1; title and text passed through; its status text reads back as the status; highlighted iff out; its buttons are the track's actions, none unless highlighted |
| HomePage.TrackCards | src/app/page.tsx:149-178 | one card per track in stored order, numbered i+1; highlighted iff out; the status text reads back as the status; a card that is not highlighted has no buttons |
| HomePage.QuickLinks | src/app/page.tsx:221-231 | one quick link per channel, in order, named by the platform's literal, href unchanged |
| HomePage.SiteLinkRows | src/app/page.tsx:92-127 | the site's streaming row has two links, with the Spotify then the Apple Music icon; its social row three, with the Instagram, TikTok then YouTube icon |
| HomePage.SiteTrackCards | src/app/page.tsx:149-200 | four cards numbered 1 to 4; only the first is highlighted; it has Spotify, Apple Music and video buttons with the track's URLs; the rest have none |
| HomePage.SiteQuickLinks | src/app/page.tsx:221-231 | the site's quick links are Instagram, TikTok and YouTube Shorts, in that order |

## Left out

- Markup and styling. This covers Tailwind classes and the wrapper components
  `PillLink`, `IconButton`, `SectionPanel` and `ExternalLink`. Beyond passing
  `href` through, these hold no logic, except that `SectionPanel` omits its
  subtitle paragraph when the subtitle is falsy (src/app/page.tsx:52). Both
  panels (src/app/page.tsx:147 and 208-212) pass a non-empty subtitle. A style
  choice appears only as a boolean (`emphasized`, `highlighted`).
- `next/image`, `next/link`, `react-icons` and Next `Metadata`. These are
  library calls. The page metadata strings (src/app/covers/page.tsx:16-19) and
  src/app/layout.tsx are not part of this model.
- Text passed straight from `site` to the markup: artist name, tagline, bio,
  album cover, EP title and description, covers description. Fixed links are
  left out too: the home page's nav and contact links, its "View all covers"
  link to `/covers` (src/app/page.tsx:214-219), and the covers page's nav link
  back to `/` (src/app/covers/page.tsx:58-63). None of these involve a choice.
- The footer year, `new Date().getFullYear()`, which reads the clock.
- Slug.ToLowerChar: lower-cases ASCII `A`–`Z` only. JavaScript's
  `toLowerCase` also folds other letters, and for some (U+0130) it changes the
  string's length.
- The count rendering `{n} total` is modelled as the number `n`, not as text.
- Whether URLs are well formed, and whether image files exist. The source
  checks neither.
- The rendering of `idx + 1` in a track key is modelled by `HomePage.Decimal`
  for non-negative integers only, which is all a position can be.
