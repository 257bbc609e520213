/**
 * What an item card shows: the primary media (first usable video, else first
 * usable image, else a fixed picture), whether it plays as a video, the
 * category colour, the badges and the location line.
 */
module ItemCard {
  import opened Common
  import opened Entities

  const DefaultMedia: string := "https://images.unsplash.com/photo-1586023492125-27b2c045efd7?w=400&h=300&fit=crop"
  const NoLocationText: string := "Location not specified"

  /** The badge classes per category; `other` is the fallback. */
  const CategoryColors: map<string, string> := map[
    "electronics" := "bg-blue-100 text-blue-800 border-blue-200",
    "tools" := "bg-orange-100 text-orange-800 border-orange-200",
    "fashion" := "bg-pink-100 text-pink-800 border-pink-200",
    "sports" := "bg-green-100 text-green-800 border-green-200",
    "vehicles" := "bg-purple-100 text-purple-800 border-purple-200",
    "home" := "bg-amber-100 text-amber-800 border-amber-200",
    "books" := "bg-indigo-100 text-indigo-800 border-indigo-200",
    "music" := "bg-violet-100 text-violet-800 border-violet-200",
    "photography" := "bg-cyan-100 text-cyan-800 border-cyan-200",
    "other" := "bg-gray-100 text-gray-800 border-gray-200"
  ]

  /** `categoryColors[category] || categoryColors.other` (every entry is a non-empty string). */
  function CategoryColor(category: string): (r: string)
    ensures r in CategoryColors.Values
    ensures category in CategoryColors ==> r == CategoryColors[category]
    ensures r == CategoryColors["other"] <==> category !in CategoryColors || category == "other"
  {
    var gray := CategoryColors["other"];
    if category in CategoryColors && CategoryColors[category] != "" then
      assert forall k :: k in CategoryColors && k != "other" ==> CategoryColors[k] != gray;
      CategoryColors[category]
    else
      gray
  }

  /** `url` ends in `suffix` when both are compared without regard to ASCII letter case. */
  predicate EndsWithIgnoringCase(url: string, suffix: string) {
    |suffix| <= |url| && Lower(url[|url| - |suffix|..]) == suffix
  }

  /** Lower-casing the whole URL and then testing the suffix is testing the suffix case-blind. */
  lemma EndsWithLower(url: string, suffix: string)
    ensures EndsWith(Lower(url), suffix) <==> EndsWithIgnoringCase(url, suffix)
  {
    if |suffix| <= |url| {
      LowerSlice(url, |url| - |suffix|, |url|);
    }
  }

  /** `/\.(mp4|mov|webm)$/i.test(url)`: the regular expression is anchored at the end only. */
  function IsVideoUrl(url: string): (r: bool)
    ensures r <==> EndsWithIgnoringCase(url, ".mp4") || EndsWithIgnoringCase(url, ".mov") || EndsWithIgnoringCase(url, ".webm")
  {
    var lower := Lower(url);
    EndsWithLower(url, ".mp4");
    EndsWithLower(url, ".mov");
    EndsWithLower(url, ".webm");
    EndsWith(lower, ".mp4") || EndsWith(lower, ".mov") || EndsWith(lower, ".webm")
  }

  /** Upper-casing a URL does not change whether it ends in `suffix`, case-blind. */
  lemma EndsWithIgnoringCaseUpper(url: string, suffix: string)
    ensures EndsWithIgnoringCase(Upper(url), suffix) == EndsWithIgnoringCase(url, suffix)
  {
    if |suffix| <= |url| {
      var n := |url| - |suffix|;
      LowerSlice(Upper(url), n, |url|);
      LowerSlice(url, n, |url|);
      LowerUpper(url);
      assert Lower(Upper(url)[n..]) == Lower(Upper(url))[n..];
    }
  }

  /** Whether a URL is a video does not depend on the letter case it is written in. */
  lemma {:induction false} IsVideoUrlIgnoresCase(url: string)
    ensures IsVideoUrl(Upper(url)) == IsVideoUrl(url)
  {
    EndsWithIgnoringCaseUpper(url, ".mp4");
    EndsWithIgnoringCaseUpper(url, ".mov");
    EndsWithIgnoringCaseUpper(url, ".webm");
  }

  /** A URL whose character where `suffix` would start is not a dot does not end in a dotted `suffix`. */
  lemma NoDotNoSuffix(url: string, suffix: string)
    requires |suffix| > 0 && suffix[0] == '.'
    requires |suffix| <= |url| ==> url[|url| - |suffix|] != '.'
    ensures !EndsWithIgnoringCase(url, suffix)
  {
    if |suffix| <= |url| {
      var tail := url[|url| - |suffix|..];
      assert Lower(tail)[0] == LowerChar(tail[0]);
    }
  }

  /** A URL with no dot four or five characters from its end is never a video. */
  lemma {:induction false} NoDotBeforeSuffixIsNoVideo(url: string)
    requires |url| >= 4 ==> url[|url| - 4] != '.'
    requires |url| >= 5 ==> url[|url| - 5] != '.'
    ensures !IsVideoUrl(url)
  {
    NoDotNoSuffix(url, ".mp4");
    NoDotNoSuffix(url, ".mov");
    NoDotNoSuffix(url, ".webm");
  }

  /** Only the last five characters of a URL decide whether it is a video. */
  lemma {:induction false} IsVideoUrlLooksAtSuffixOnly(prefix: string, url: string)
    requires |url| >= 5
    ensures IsVideoUrl(prefix + url) == IsVideoUrl(url)
  {
    var whole := prefix + url;
    assert whole[|whole| - 4..] == url[|url| - 4..];
    assert whole[|whole| - 5..] == url[|url| - 5..];
  }

  /** `list || []` */
  function MediaList(urls: Option<seq<string>>): seq<string> {
    urls.GetOr([])
  }

  /** `urls.filter(Boolean)`: the non-empty URLs, in their order. */
  function DropFalsy(urls: seq<string>): (r: seq<string>)
    ensures |r| <= |urls|
    ensures forall u :: u in r <==> u in urls && u != ""
  {
    if urls == [] then []
    else if urls[0] == "" then DropFalsy(urls[1..])
    else [urls[0]] + DropFalsy(urls[1..])
  }

  /** Filtering distributes over concatenation, so relative order is kept. */
  lemma {:induction false} DropFalsyAppend(a: seq<string>, b: seq<string>)
    ensures DropFalsy(a + b) == DropFalsy(a) + DropFalsy(b)
  {
    if a == [] {
      assert a + b == b;
    } else {
      assert (a + b)[0] == a[0];
      assert (a + b)[1..] == a[1..] + b;
      DropFalsyAppend(a[1..], b);
    }
  }

  /** Filtering twice is filtering once. */
  lemma {:induction false} DropFalsyIdempotent(urls: seq<string>)
    ensures DropFalsy(DropFalsy(urls)) == DropFalsy(urls)
  {
    if urls != [] {
      DropFalsyIdempotent(urls[1..]);
    }
  }

  predicate HasTruthy(urls: seq<string>) {
    exists i :: 0 <= i < |urls| && urls[i] != ""
  }

  /** Index `i` holds the first non-empty URL. */
  predicate IsFirstTruthy(urls: seq<string>, i: int) {
    0 <= i < |urls| && urls[i] != "" && forall j :: 0 <= j < i ==> urls[j] == ""
  }

  /** The head of the filtered list is the first non-empty URL of the original one. */
  lemma {:induction false} DropFalsyHead(urls: seq<string>)
    ensures |DropFalsy(urls)| > 0 <==> HasTruthy(urls)
    ensures |DropFalsy(urls)| > 0 ==> exists i :: IsFirstTruthy(urls, i) && DropFalsy(urls)[0] == urls[i]
  {
    if urls != [] {
      if urls[0] != "" {
        assert IsFirstTruthy(urls, 0);
      } else {
        DropFalsyHead(urls[1..]);
        if |DropFalsy(urls)| > 0 {
          var i :| IsFirstTruthy(urls[1..], i) && DropFalsy(urls[1..])[0] == urls[1..][i];
          assert IsFirstTruthy(urls, i + 1);
        }
        if HasTruthy(urls) {
          var i :| 0 <= i < |urls| && urls[i] != "";
          assert urls[1..][i - 1] != "";
        }
      }
    }
  }

  /** `validVideos[0] || validImages[0] || DefaultMedia` */
  function PrimaryMedia(item: Item): (r: string)
    ensures r != ""
    ensures HasTruthy(MediaList(item.videos)) ==>
              exists i :: IsFirstTruthy(MediaList(item.videos), i) && r == MediaList(item.videos)[i]
    ensures !HasTruthy(MediaList(item.videos)) && HasTruthy(MediaList(item.images)) ==>
              exists i :: IsFirstTruthy(MediaList(item.images), i) && r == MediaList(item.images)[i]
    ensures !HasTruthy(MediaList(item.videos)) && !HasTruthy(MediaList(item.images)) ==> r == DefaultMedia
  {
    var videos := DropFalsy(MediaList(item.videos));
    var images := DropFalsy(MediaList(item.images));
    DropFalsyHead(MediaList(item.videos));
    DropFalsyHead(MediaList(item.images));
    if |videos| > 0 then
      assert videos[0] in videos;
      videos[0]
    else if |images| > 0 then
      assert images[0] in images;
      images[0]
    else DefaultMedia
  }

  /** The card's media element: a muted video, or an image run through the image optimiser. */
  datatype CardMedia = VideoPlayer(src: string) | OptimizedImage(original: string)

  /** Everything the card decides about what it shows. */
  datatype CardView = CardView(
    media: CardMedia,
    categoryClass: string,
    instantBadge: bool,
    videoBadge: bool,
    unavailableOverlay: bool,
    locationText: string)

  function View(item: Item): (v: CardView)
    ensures v.media.VideoPlayer? <==> IsVideoUrl(PrimaryMedia(item))
    ensures v.media == VideoPlayer(PrimaryMedia(item)) || v.media == OptimizedImage(PrimaryMedia(item))
    ensures v.categoryClass == CategoryColor(item.category)
    ensures v.instantBadge <==> item.instantBooking == Some(true)
    ensures v.videoBadge <==> HasTruthy(MediaList(item.videos))
    ensures v.unavailableOverlay <==> !item.availability
    ensures Truthy(item.location) ==> v.locationText == item.location.value
    ensures !Truthy(item.location) ==> v.locationText == NoLocationText
  {
    var primary := PrimaryMedia(item);
    DropFalsyHead(MediaList(item.videos));
    CardView(
      if IsVideoUrl(primary) then VideoPlayer(primary) else OptimizedImage(primary),
      CategoryColor(item.category),
      item.instantBooking == Some(true),
      |DropFalsy(MediaList(item.videos))| > 0,
      !item.availability,
      OrElse(item.location, Some(NoLocationText)).value)
  }

  /** An image whose URL ends in a video extension plays as a video, with no video badge. */
  lemma ImageWithVideoSuffixPlays(item: Item)
    requires item.videos == None
    requires item.images == Some(["", "https://cdn.example/tour.MOV", "https://cdn.example/a.jpg"])
    ensures View(item).media == VideoPlayer("https://cdn.example/tour.MOV")
    ensures !View(item).videoBadge
  {
    assert IsFirstTruthy(MediaList(item.images), 1);
    assert EndsWithIgnoringCase("https://cdn.example/tour.MOV", ".mov");
  }

  /** A video whose URL has no video extension is shown as an optimised image, with the video badge. */
  lemma VideoWithoutSuffixIsImage(item: Item)
    requires item.videos == Some(["https://cdn.example/stream"])
    ensures View(item).media == OptimizedImage("https://cdn.example/stream")
    ensures View(item).videoBadge
  {
    var url := "https://cdn.example/stream";
    assert IsFirstTruthy(MediaList(item.videos), 0);
    NoDotBeforeSuffixIsNoVideo(url);
  }
}
