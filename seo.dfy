/**
 * The SEO composable (composables/useSeo.ts): merge per-call options, the
 * translated entry of the current page and the translated site defaults,
 * field by field, then emit the page head (generic, Open Graph and Twitter
 * meta tags, a canonical link, the `lang` attribute and a title template).
 *
 * Translation lookup, the active locale, the current route and the runtime
 * site URL are the inputs of a `SeoContext`; the two head-mutation calls
 * become fields of a `SeoHead` object.
 */
module Seo {
  import opened Wrappers
  import opened Strings
  import opened Routing
  import opened SeoConfig

  /** Translation lookup by key (`t`), whatever the translation files hold. */
  type Translator = string -> string

  /** Optional per-call overrides (`SEOProps`). */
  datatype SeoProps = SeoProps(
    title: Option<string>,
    description: Option<string>,
    keywords: Option<string>,
    image: Option<string>,
    ogType: Option<OGType>)

  const NoProps: SeoProps := SeoProps(None, None, None, None, None)

  /** What the composable reads: `t`, the active locale, the route and `runtimeConfig.public.siteUrl`. */
  datatype SeoContext = SeoContext(t: Translator, locale: string, route: Route, siteUrl: Option<string>)

  /** The fully resolved metadata of one page. */
  datatype MergedSeo = MergedSeo(title: string, description: string, keywords: string, image: string, ogType: OGType, url: string)

  const DefaultTitleKey: string := "seo.defaults.title"
  const DefaultDescriptionKey: string := "seo.defaults.description"
  const DefaultKeywordsKey: string := "seo.defaults.keywords"
  const SiteTitleKey: string := "site.title"

  /** The translation key `seo.pages.<pageName>.<field>`. */
  function PageKey(pageName: string, field: string): string {
    "seo.pages." + pageName + "." + field
  }

  /** Whether `seoConfig.pages` lists the page name. */
  predicate IsRegisteredPage(pageName: string) {
    pageName in Pages
  }

  /**
   * `getPageConfig`: the translated title, description and keywords of a
   * registered page, or None for an empty or unregistered name.
   */
  function GetPageConfig(t: Translator, pageName: string): (r: Option<SeoProps>)
    ensures r.None? <==> pageName == "" || !IsRegisteredPage(pageName)
    ensures r.Some? ==> r.value == SeoProps(
      Some(t(PageKey(pageName, "title"))),
      Some(t(PageKey(pageName, "description"))),
      Some(t(PageKey(pageName, "keywords"))),
      None, None)
  {
    if pageName == "" || pageName !in Pages then None
    else Some(SeoProps(
      Some(t(PageKey(pageName, "title"))),
      Some(t(PageKey(pageName, "description"))),
      Some(t(PageKey(pageName, "keywords"))),
      None, None))
  }

  /**
   * `c[0] || c[1] || ... || last`: the first truthy candidate, or `last`
   * when none is (even if `last` itself is empty).
   */
  function FirstTruthy(candidates: seq<Option<string>>, last: string): (r: string)
    ensures forall i ::
      (0 <= i < |candidates| && Truthy(candidates[i]) && forall j :: 0 <= j < i ==> !Truthy(candidates[j]))
      ==> r == candidates[i].value
    ensures (forall i :: 0 <= i < |candidates| ==> !Truthy(candidates[i])) ==> r == last
    decreases |candidates|
  {
    if candidates == [] then last
    else OrElse(candidates[0], FirstTruthy(candidates[1..], last))
  }

  function TitleOf(p: Option<SeoProps>): Option<string> {
    if p.Some? then p.value.title else None
  }

  function DescriptionOf(p: Option<SeoProps>): Option<string> {
    if p.Some? then p.value.description else None
  }

  function KeywordsOf(p: Option<SeoProps>): Option<string> {
    if p.Some? then p.value.keywords else None
  }

  function ImageOf(p: Option<SeoProps>): Option<string> {
    if p.Some? then p.value.image else None
  }

  /** The page configuration `mergeSeoConfig` consults: only for a truthy page name. */
  function PageConfigFor(t: Translator, pageName: Option<string>): (r: Option<SeoProps>)
    ensures r.Some? <==> Truthy(pageName) && IsRegisteredPage(pageName.value)
    ensures r.Some? ==> r == GetPageConfig(t, pageName.value)
  {
    if Truthy(pageName) then GetPageConfig(t, pageName.value) else None
  }

  /**
   * `mergeSeoConfig(options, pageName)`: title, description and keywords
   * from the options, else the page config, else the translated defaults;
   * the image from the options, else the default social image; the type
   * from the options, else `website`; the URL always from the route.
   */
  function MergeSeoConfig(ctx: SeoContext, options: Option<SeoProps>, pageName: Option<string>): (r: MergedSeo)
    ensures r.url == GenerateUrl(ctx.siteUrl, ctx.route.path)
    ensures r.image != ""
    ensures r.ogType == Website || (options.Some? && options.value.ogType == Some(r.ogType))
  {
    var pageConfig := PageConfigFor(ctx.t, pageName);
    MergedSeo(
      FirstTruthy([TitleOf(options), TitleOf(pageConfig)], ctx.t(DefaultTitleKey)),
      FirstTruthy([DescriptionOf(options), DescriptionOf(pageConfig)], ctx.t(DefaultDescriptionKey)),
      FirstTruthy([KeywordsOf(options), KeywordsOf(pageConfig)], ctx.t(DefaultKeywordsKey)),
      OrElse(ImageOf(options), DefaultOgImage),
      if options.Some? && options.value.ogType.Some? then options.value.ogType.value else Website,
      GenerateUrl(ctx.siteUrl, ctx.route.path))
  }

  /**
   * Precedence of the text fields: a truthy option wins; otherwise the page's
   * truthy translation; otherwise the translated default.
   */
  lemma {:induction false} MergePrecedence(ctx: SeoContext, options: Option<SeoProps>, pageName: Option<string>)
    ensures var m := MergeSeoConfig(ctx, options, pageName);
      var page := PageConfigFor(ctx.t, pageName);
      && m.title == (if Truthy(TitleOf(options)) then TitleOf(options).value
                     else if Truthy(TitleOf(page)) then TitleOf(page).value
                     else ctx.t(DefaultTitleKey))
      && m.description == (if Truthy(DescriptionOf(options)) then DescriptionOf(options).value
                           else if Truthy(DescriptionOf(page)) then DescriptionOf(page).value
                           else ctx.t(DefaultDescriptionKey))
      && m.keywords == (if Truthy(KeywordsOf(options)) then KeywordsOf(options).value
                        else if Truthy(KeywordsOf(page)) then KeywordsOf(page).value
                        else ctx.t(DefaultKeywordsKey))
  {
    var page := PageConfigFor(ctx.t, pageName);
    FirstTruthyPair(TitleOf(options), TitleOf(page), ctx.t(DefaultTitleKey));
    FirstTruthyPair(DescriptionOf(options), DescriptionOf(page), ctx.t(DefaultDescriptionKey));
    FirstTruthyPair(KeywordsOf(options), KeywordsOf(page), ctx.t(DefaultKeywordsKey));
  }

  /** `a || b || c` for two optional candidates. */
  lemma FirstTruthyPair(a: Option<string>, b: Option<string>, c: string)
    ensures FirstTruthy([a, b], c) == if Truthy(a) then a.value else if Truthy(b) then b.value else c
  {
    assert [a, b][0] == a && [a, b][1] == b;
  }

  /** An empty-string option does not override anything: it merges like an absent one. */
  lemma EmptyOptionDoesNotOverride(ctx: SeoContext, p: SeoProps, pageName: Option<string>)
    requires p.title == Some("")
    ensures MergeSeoConfig(ctx, Some(p), pageName).title == MergeSeoConfig(ctx, Some(p.(title := None)), pageName).title
  {
    MergePrecedence(ctx, Some(p), pageName);
    MergePrecedence(ctx, Some(p.(title := None)), pageName);
  }

  /**
   * Image and type: a non-empty image option is used, anything else falls
   * back to the default social image; a given type is used, else `website`.
   * This covers the page configuration `updatePageSeo` passes, which has
   * neither.
   */
  lemma MergeFallbacks(ctx: SeoContext, options: Option<SeoProps>, pageName: Option<string>)
    ensures !Truthy(ImageOf(options)) ==> MergeSeoConfig(ctx, options, pageName).image == DefaultOgImage
    ensures Truthy(ImageOf(options)) ==> MergeSeoConfig(ctx, options, pageName).image == ImageOf(options).value
    ensures (options.None? || options.value.ogType.None?) ==> MergeSeoConfig(ctx, options, pageName).ogType == Website
    ensures options.Some? && options.value.ogType.Some? ==>
      MergeSeoConfig(ctx, options, pageName).ogType == options.value.ogType.value
  {
  }

  /** The URL comes from the route alone: no option and no page name changes it. */
  lemma UrlIgnoresOptions(ctx: SeoContext, o1: Option<SeoProps>, p1: Option<string>, o2: Option<SeoProps>, p2: Option<string>)
    ensures MergeSeoConfig(ctx, o1, p1).url == MergeSeoConfig(ctx, o2, p2).url
    ensures MergeSeoConfig(ctx, o1, p1).url == GenerateUrl(ctx.siteUrl, ctx.route.path)
  {
  }

  /**
   * With no options and a registered page whose translations are present,
   * the merge yields that page's title, description and keywords.
   */
  lemma PageTranslationsUsed(ctx: SeoContext, pageName: string)
    requires IsRegisteredPage(pageName)
    requires ctx.t(PageKey(pageName, "title")) != ""
    requires ctx.t(PageKey(pageName, "description")) != ""
    requires ctx.t(PageKey(pageName, "keywords")) != ""
    ensures var m := MergeSeoConfig(ctx, Some(NoProps), Some(pageName));
      && m.title == ctx.t(PageKey(pageName, "title"))
      && m.description == ctx.t(PageKey(pageName, "description"))
      && m.keywords == ctx.t(PageKey(pageName, "keywords"))
  {
    PagesContents(pageName);
    MergePrecedence(ctx, Some(NoProps), Some(pageName));
  }

  /** `{title: "Custom"}` on the home page: the custom title, everything else from the page. */
  lemma CustomTitleOnHome(ctx: SeoContext)
    requires ctx.t(PageKey("home", "description")) != ""
    requires ctx.t(PageKey("home", "keywords")) != ""
    ensures var m := MergeSeoConfig(ctx, Some(NoProps.(title := Some("Custom"))), Some("home"));
      && m.title == "Custom"
      && m.description == ctx.t(PageKey("home", "description"))
      && m.keywords == ctx.t(PageKey("home", "keywords"))
  {
    PagesContents("home");
    MergePrecedence(ctx, Some(NoProps.(title := Some("Custom"))), Some("home"));
  }

  /** An unregistered page name gives the translated site defaults. */
  lemma UnknownPageGivesDefaults(ctx: SeoContext, pageName: string)
    requires !IsRegisteredPage(pageName)
    ensures MergeSeoConfig(ctx, Some(NoProps), Some(pageName))
         == MergedSeo(ctx.t(DefaultTitleKey), ctx.t(DefaultDescriptionKey), ctx.t(DefaultKeywordsKey),
                      DefaultOgImage, Website, GenerateUrl(ctx.siteUrl, ctx.route.path))
  {
    MergePrecedence(ctx, Some(NoProps), Some(pageName));
  }

  /** All the meta tags `useSeoMeta` receives. */
  datatype SeoMeta = SeoMeta(
    title: string, description: string, keywords: string, author: string,
    ogTitle: string, ogDescription: string, ogImage: string, ogUrl: string, ogType: OGType,
    twitterCard: TwitterCard, twitterTitle: string, twitterDescription: string, twitterImage: string,
    twitterCreator: string, twitterSite: string)

  datatype Link = Link(rel: string, href: string)

  /** What `useHead` receives: the title template's site title, the `lang` attribute and the links. */
  datatype HeadTags = HeadTags(siteTitle: string, lang: string, links: seq<Link>)

  /**
   * The meta tags for a merged configuration: one title, one description and
   * one image URL shared by the generic, Open Graph and Twitter tags.
   */
  function MetaOf(config: MergedSeo, siteUrl: Option<string>): (r: SeoMeta)
    ensures r.title == r.ogTitle == r.twitterTitle == config.title
    ensures r.description == r.ogDescription == r.twitterDescription == config.description
    ensures r.ogImage == r.twitterImage == GenerateImageUrl(siteUrl, config.image)
    ensures r.ogUrl == config.url && r.ogType == config.ogType && r.keywords == config.keywords
    ensures r.author == DefaultAuthor && r.twitterCard == Twitter.card
    ensures r.twitterCreator == Twitter.creator && r.twitterSite == Twitter.site
  {
    var ogImage := GenerateImageUrl(siteUrl, config.image);
    SeoMeta(
      config.title, config.description, config.keywords, DefaultAuthor,
      config.title, config.description, ogImage, config.url, config.ogType,
      Twitter.card, config.title, config.description, ogImage,
      Twitter.creator, Twitter.site)
  }

  /** The head tags: the site title for the template, the active locale as `lang`, the canonical URL. */
  function HeadTagsOf(config: MergedSeo, t: Translator, locale: string): (r: HeadTags)
    ensures r.lang == locale
    ensures r.links == [Link("canonical", config.url)]
    ensures r.siteTitle == t(SiteTitleKey)
  {
    HeadTags(t(SiteTitleKey), locale, [Link("canonical", config.url)])
  }

  /** `titleTemplate`: a truthy chunk followed by ` - ` and the site title, else the site title alone. */
  function ApplyTitleTemplate(head: HeadTags, chunk: Option<string>): (r: string)
    ensures EndsWith(r, head.siteTitle)
    ensures Truthy(chunk) ==> StartsWith(r, chunk.value + " - ") && |r| == |chunk.value| + 3 + |head.siteTitle|
    ensures !Truthy(chunk) ==> r == head.siteTitle
  {
    if Truthy(chunk) then
      var r := chunk.value + " - " + head.siteTitle;
      StartsWithConcat(chunk.value + " - ", head.siteTitle);
      assert r[|r| - |head.siteTitle|..] == head.siteTitle;
      r
    else
      assert head.siteTitle[0..] == head.siteTitle;
      head.siteTitle
  }

  /** The canonical link and the Open Graph URL are the same page URL, and the page language is the active locale. */
  lemma HeadConsistent(ctx: SeoContext, options: Option<SeoProps>, pageName: Option<string>)
    ensures var config := MergeSeoConfig(ctx, options, pageName);
      var meta := MetaOf(config, ctx.siteUrl);
      var head := HeadTagsOf(config, ctx.t, ctx.locale);
      && head.links[0].rel == "canonical"
      && head.links[0].href == meta.ogUrl == GenerateUrl(ctx.siteUrl, ctx.route.path)
      && head.lang == ctx.locale
  {
  }

  /** `typeof route.name === "string" ? route.name : null`. */
  function RoutePageName(name: RouteName): (r: Option<string>)
    ensures r.Some? <==> name.NamedByString?
    ensures r.Some? ==> r.value == name.name
  {
    match name
    case NamedByString(n) => Some(n)
    case _ => None
  }

  const PageNameRequired: string := "Page name is required"

  function PageNotDefined(pageName: string): string {
    "Page \"" + pageName + "\" is not defined in seoConfig.pages"
  }

  /** The page head as the two head-mutation calls leave it, and the warnings logged. */
  class SeoHead {
    var meta: Option<SeoMeta>
    var head: Option<HeadTags>
    var warnings: seq<string>

    constructor ()
      ensures meta == None && head == None && warnings == []
    {
      meta := None;
      head := None;
      warnings := [];
    }

    /** `updateSeoMeta(options)`: merge with the route's name as page name, then set the meta tags and the head. */
    method UpdateSeoMeta(ctx: SeoContext, options: Option<SeoProps>)
      modifies this
      ensures var config := MergeSeoConfig(ctx, options, RoutePageName(ctx.route.name));
        && meta == Some(MetaOf(config, ctx.siteUrl))
        && head == Some(HeadTagsOf(config, ctx.t, ctx.locale))
      ensures warnings == old(warnings)
    {
      var currentPath := RoutePageName(ctx.route.name);
      var config := MergeSeoConfig(ctx, options, currentPath);
      meta := Some(MetaOf(config, ctx.siteUrl));
      head := Some(HeadTagsOf(config, ctx.t, ctx.locale));
    }

    /**
     * `updatePageSeo(pageName)`: an empty or unregistered name is warned
     * about and the head is emitted without options; a registered name
     * emits with its page config as the options. Either way the options are
     * `getPageConfig(pageName)`, and the route's name still picks the page
     * config the merge falls back to.
     */
    method UpdatePageSeo(ctx: SeoContext, pageName: string)
      modifies this
      ensures var config := MergeSeoConfig(ctx, GetPageConfig(ctx.t, pageName), RoutePageName(ctx.route.name));
        && meta == Some(MetaOf(config, ctx.siteUrl))
        && head == Some(HeadTagsOf(config, ctx.t, ctx.locale))
      ensures pageName == "" ==> warnings == old(warnings) + [PageNameRequired]
      ensures pageName != "" && !IsRegisteredPage(pageName) ==> warnings == old(warnings) + [PageNotDefined(pageName)]
      ensures IsRegisteredPage(pageName) && pageName != "" ==> warnings == old(warnings)
    {
      if pageName == "" {
        warnings := warnings + [PageNameRequired];
        UpdateSeoMeta(ctx, None);
        return;
      }
      if pageName !in Pages {
        warnings := warnings + [PageNotDefined(pageName)];
        UpdateSeoMeta(ctx, None);
        return;
      }
      var pageConfig := GetPageConfig(ctx.t, pageName);
      UpdateSeoMeta(ctx, pageConfig);
    }
  }

  /**
   * For a registered page with a present title translation, `updatePageSeo`
   * emits that title in the generic, Open Graph and Twitter tags, whatever
   * the route is called.
   */
  lemma PageSeoTitle(ctx: SeoContext, pageName: string)
    requires IsRegisteredPage(pageName) && ctx.t(PageKey(pageName, "title")) != ""
    ensures var meta := MetaOf(MergeSeoConfig(ctx, GetPageConfig(ctx.t, pageName), RoutePageName(ctx.route.name)), ctx.siteUrl);
      meta.title == meta.ogTitle == meta.twitterTitle == ctx.t(PageKey(pageName, "title"))
  {
    PagesContents(pageName);
    MergePrecedence(ctx, GetPageConfig(ctx.t, pageName), RoutePageName(ctx.route.name));
  }
}
