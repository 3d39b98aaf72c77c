/**
 * Site-wide SEO settings and URL builders (config/seo.ts). The site origin
 * comes from the runtime configuration on every call; here it is the
 * parameter `configured`, the value of `runtimeConfig.public.siteUrl`.
 */
module SeoConfig {
  import opened Wrappers
  import opened Strings

  datatype TwitterCard = Summary | SummaryLargeImage | App | Player

  /** The Open Graph object types the head accepts. */
  datatype OGType =
    | Website | Article | Book | Profile
    | MusicSong | MusicAlbum | MusicPlaylist | MusicRadioStatus
    | VideoMovie | VideoEpisode | VideoTvShow | VideoOther

  datatype Defaults = Defaults(titleTemplate: string, author: string, ogImage: string)

  datatype TwitterSettings = TwitterSettings(card: TwitterCard, creator: string, site: string)

  const DefaultAuthor: string := "Nuxt Starter Team"

  const DefaultOgImage: string := "/images/social/og-image.svg"

  /** `seoConfig.defaults`; `siteName` is the NUXT_PUBLIC_SITE_NAME environment variable. */
  function SeoDefaults(siteName: string): Defaults {
    Defaults("%s - " + siteName, DefaultAuthor, DefaultOgImage)
  }

  /** `seoConfig.social.twitter`. */
  const Twitter: TwitterSettings := TwitterSettings(SummaryLargeImage, "@Nuxt Starter", "@Nuxt Starter")

  /** `seoConfig.social.facebook.appId`: not configured. */
  const FacebookAppId: string := ""

  /** `seoConfig.pages`: the page names that have translated SEO entries. */
  const Pages: seq<string> := ["home", "privacy", "terms", "group", "sales"]

  /** The registered pages are exactly these five, each non-empty. */
  lemma PagesContents(name: string)
    ensures name in Pages <==> name in {"home", "privacy", "terms", "group", "sales"}
    ensures name in Pages ==> name != ""
    ensures |Pages| == 5
  {
  }

  /** The constant defaults: author and social image are fixed, the title template carries the site name. */
  lemma DefaultsContents(siteName: string)
    ensures SeoDefaults(siteName).author == "Nuxt Starter Team"
    ensures SeoDefaults(siteName).ogImage == "/images/social/og-image.svg"
    ensures SeoDefaults(siteName).titleTemplate == "%s - " + siteName
  {
  }

  /** `getSiteUrl`: `siteUrl || ""`. */
  function GetSiteUrl(configured: Option<string>): (r: string)
    ensures r == configured.GetOr("")
  {
    OrElse(configured, "")
  }

  /** `normalizeUrl`: prepend `/` unless there already is one. */
  function NormalizeUrl(path: string): (r: string)
    ensures StartsWith(r, "/")
    ensures StartsWith(path, "/") ==> r == path
    ensures !StartsWith(path, "/") ==> r == "/" + path
  {
    if StartsWith(path, "/") then path
    else
      StartsWithConcat("/", path);
      "/" + path
  }

  /** Normalizing twice is normalizing once. */
  lemma NormalizeUrlIdempotent(path: string)
    ensures NormalizeUrl(NormalizeUrl(path)) == NormalizeUrl(path)
  {
  }

  /** `generateUrl`: the site origin followed by the normalized path. */
  function GenerateUrl(configured: Option<string>, path: string): (r: string)
    ensures StartsWith(r, GetSiteUrl(configured) + "/")
  {
    var origin := GetSiteUrl(configured);
    var n := NormalizeUrl(path);
    assert n == "/" + n[1..];
    assert origin + n == (origin + "/") + n[1..];
    StartsWithConcat(origin + "/", n[1..]);
    origin + n
  }

  /** `generateImageUrl`: absolute `http...` URLs pass through, anything else is built like a page URL. */
  function GenerateImageUrl(configured: Option<string>, imagePath: string): (r: string)
    ensures r == imagePath || StartsWith(r, GetSiteUrl(configured) + "/")
  {
    if StartsWith(imagePath, "http") then imagePath
    else GenerateUrl(configured, imagePath)
  }

  /** A path with or without its leading slash gives the same page URL (`about` and `/about`). */
  lemma GenerateUrlSlashInsensitive(configured: Option<string>, path: string)
    requires !StartsWith(path, "/")
    ensures GenerateUrl(configured, path) == GenerateUrl(configured, "/" + path)
    ensures GenerateUrl(configured, path) == configured.GetOr("") + "/" + path
  {
    StartsWithConcat("/", path);
  }

  /** Without a configured origin, page URLs are root-relative paths. */
  lemma GenerateUrlWithoutOrigin(path: string)
    ensures GenerateUrl(None, path) == NormalizeUrl(path)
    ensures GenerateUrl(Some(""), path) == NormalizeUrl(path)
  {
  }

  /** An absolute image URL comes back unchanged, whatever the origin. */
  lemma ImageUrlPassthrough(configured: Option<string>, imagePath: string)
    requires StartsWith(imagePath, "http")
    ensures GenerateImageUrl(configured, imagePath) == imagePath
  {
  }

  /** A relative image path is resolved exactly like a page path. */
  lemma ImageUrlIsPageUrl(configured: Option<string>, imagePath: string)
    requires !StartsWith(imagePath, "http")
    ensures GenerateImageUrl(configured, imagePath) == GenerateUrl(configured, imagePath)
    ensures StartsWith(GenerateImageUrl(configured, imagePath), GetSiteUrl(configured) + "/")
  {
  }

  /** For any origin, `about` and `/about` both build `origin + "/about"`. */
  lemma PageUrlExample(origin: string)
    ensures GenerateUrl(Some(origin), "about") == origin + "/about"
    ensures GenerateUrl(Some(origin), "/about") == origin + "/about"
  {
    NotStartsWithOtherHead("about", "/");
    GenerateUrlSlashInsensitive(Some(origin), "about");
  }

  /** An absolute CDN image is kept; `/img.png` is resolved against the origin. */
  lemma ImageUrlExamples(origin: string)
    ensures GenerateImageUrl(Some(origin), "https://cdn.example/x.png") == "https://cdn.example/x.png"
    ensures GenerateImageUrl(Some(origin), "/img.png") == origin + "/img.png"
  {
    assert "https://cdn.example/x.png"[..4] == "http";
    assert "/img.png"[..1] == "/";
    NotStartsWithOtherHead("/img.png", "http");
  }
}
