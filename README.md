# Locale paths and page metadata of a multi-language site

This project models, in Dafny, the logic at the centre of a Nuxt marketing site front-end:

- **The locale path codec and the locale switcher** (`composables/useLocale.ts`, with the registry in `i18n/config.ts`). The URL strategy is "prefix except default". Paths of the default locale `en` carry no prefix. Paths of every other locale (here only `vi`) start with `/{code}`. Links starting with `http` pass through unchanged. Fragments (`#...`) are resolved against the current page.
- **The switcher.** `switchLocale` validates the requested code, sets the locale, writes the `i18n_redirected` cookie in the browser, and replace-navigates to the current page re-prefixed for the new locale. It catches every failure and logs it.
- **The SEO composer** (`composables/useSeo.ts` over `config/seo.ts`). It merges per-call options, the translated entry of the current page and the translated site defaults, field by field. Then it emits generic, Open Graph and Twitter meta tags, a canonical link, the `lang` attribute and a title template.
- **The static configurations** with their lookup and validation helpers: social links per locale (`config/social.ts`) and the showcase list (`config/showcase.ts`).

Modules:

| module | file | models |
|---|---|---|
| `Wrappers` | `wrappers.dfy` | `Option` (`null`/`undefined` versus a value) |
| `Strings` | `strings.dfy` | the JavaScript string operations the core uses, with their edge cases: `startsWith`; `substring` past the end; `split`, which always returns at least one piece; the `or` operator on optional strings; `Array.every` |
| `Routing` | `routing.dfy` | the route record: path, query and name |
| `LocaleRegistry` | `locale_registry.dfy` | `LOCALES`, `DEFAULT_LOCALE` and the code-to-locale map |
| `LocalePath` | `locale_path.dfy` | the pure part of the locale composable: the path codec, the locale's display name and the selector options |
| `LocaleSwitch` | `locale_switch.dfy` | `switchLocale`. The pure specification is `SwitchLocaleSpec`. The class `LocaleSwitcher` holds the active locale, the last cookie written, the navigations made and the console log. Its method `SwitchLocale` follows the source step by step and is proved to equal the specification. |
| `SeoConfig` | `seo_config.dfy` | `seoConfig`: the defaults, the Twitter settings, the page list and the URL builders |
| `Seo` | `seo.dfy` | `useSeo`. The pure merge and tag builders are functions. The class `SeoHead` holds what the two head calls (`useSeoMeta`, `useHead`) leave behind, plus the warnings. |
| `Social` | `social.dfy` | `config/social.ts` |
| `Showcase` | `showcase.dfy` | `config/showcase.ts` |

The model has inputs in place of the framework services:

- The translation function `t` is an arbitrary `string -> string`.
- The active locale, the current route and `runtimeConfig.public.siteUrl` are parameters (`SeoContext`, `Route`).
- `process.client` is the flag `isClient`.
- Which of the three effects of `switchLocale` throws is the parameter `fault`: `setLocale`, the cookie write or `navigateTo`.

### Behaviour worth knowing

- **Reading the locale from a path.** `extractLocaleFromPath` reads element 1 of `path.split("/")`. So the locale of a path is its first segment only when the path starts with a single `/`: `//vi` and `vi/x` carry no locale. A path that is not rooted but has a code as its segment 1 is still decoded, and `removeLocalePrefix` then cuts it by position, not by segment: `x/vi/y` decodes to `vi`, and `substring(3)` turns it into `i/y`.
- **The default locale cannot be told from an unprefixed path.** For every plain path `P` (one starting with neither `http` nor `#`) and every registered locale other than the default, `removeLocalePrefix` of `getLocalePath(P)` is the normalized `P`, and `extractLocaleFromPath` of it is the locale. For the default locale this holds only when the normalized path does not already start with a locale segment: under `en`, `getLocalePath("/vi/about")` is `/vi/about`, which is read back as `vi`. See `LocalePathRoundTrip` and `DefaultLocaleAmbiguity`. A locale that is not registered is not covered: under `fr`, `/x` becomes `/fr/x`, and `removeLocalePrefix` leaves that unchanged.
- **Failures are not rolled back.** `setLocale` runs before the cookie write and the navigation. When either of those throws, the new locale stays set.
- **`updatePageSeo` with an empty or unregistered page name.** It calls `updateSeoMeta()` with no options. That call still merges with the page config picked by the route's name, so the result is the full site defaults only when the route's name is not a registered page.

## Model

| member | source | states |
|---|---|---|
| `LocaleRegistry.RegistryContents` | i18n/config.ts:4-22 | The registered codes are `en` then `vi`. The default `en` is registered. A code is registered exactly when it is `en` or `vi`; `IsRegistered` is the `LOCALES.some(l => l.code === code)` test of `composables/useLocale.ts` line 67. |
| `LocaleRegistry.RegisteredCodeShape` | i18n/config.ts:4-19 | Every registered code is non-empty and contains no `/`, so it occupies exactly one path segment. |
| `LocaleRegistry.Codes` | i18n/config.ts:4-19 | The codes of a locale list, position by position. |
| `LocaleRegistry.CodeMap` | composables/useLocale.ts:14-16 | `new Map(ls.map(l => [l.code, l]))`: the keys are exactly the codes in the list, and each key maps to a locale of the list with that code. |
| `LocaleRegistry.LocalesMap` | composables/useLocale.ts:14-16 | `localesMap`: `has(code)` holds exactly when the code is registered, and each key maps to its own registry entry. |
| `LocalePath.NormalizePath` | composables/useLocale.ts:23-29 | The result is the path or `/` + the path. The slash is added exactly when the path starts with none of `/`, `http` or `#`. Every plain path comes out rooted. |
| `LocalePath.RootedIsPlain` | composables/useLocale.ts:23-29 | A path starting with `/` is neither external nor a fragment. |
| `LocalePath.NormalizePathIdempotent` | composables/useLocale.ts:23-29 | Normalizing twice gives the same result as normalizing once. |
| `LocalePath.GetLocalePath` | composables/useLocale.ts:36-57 | An `http...` link is returned unchanged. A fragment ends the result. Every plain path comes out rooted. The lemmas `ExternalPassthrough`, `FragmentStaysOnPage`, `PlainPathPrefix` and `LocalePathRoundTrip` give each branch in full. |
| `LocalePath.ExternalPassthrough` | composables/useLocale.ts:38-39 | `getLocalePath` returns an `http...` link unchanged, whatever the locale and the route. |
| `LocalePath.FragmentStaysOnPage` | composables/useLocale.ts:42-45 | A fragment is appended to the current path, with the root path counting as empty. It never gets a locale prefix, so the result is the same under every locale. |
| `LocalePath.PlainPathPrefix` | composables/useLocale.ts:48-56 | A plain path is normalized. It is prefixed with `/{locale}` exactly when the active locale is not the default. |
| `LocalePath.ExtractLocaleFromPath` | composables/useLocale.ts:64-68 | The result is a code exactly when segment 1 of `split("/")` exists and is a registered code, and then it is that segment. Otherwise the result is None. |
| `LocalePath.RemoveLocalePrefix` | composables/useLocale.ts:75-80 | A path that carries no locale code is returned unchanged. |
| `LocalePath.RootedSegments` | composables/useLocale.ts:64-68 | In `/seg` followed by nothing or by `/...`, where `seg` contains no `/`, `seg` is segment 1. |
| `LocalePath.RootedDecompose` | composables/useLocale.ts:64-68 | Every rooted path is `/` + its segment 1, followed by nothing or by `/`. |
| `LocalePath.PrefixedPath` | composables/useLocale.ts:64-80 | `/{code}` + `rest`, where `rest` is empty or rooted, decodes to `code` and strips to `rest`, or to `/` when `rest` is empty. |
| `LocalePath.UnprefixedPath` | composables/useLocale.ts:64-80 | A rooted path whose first segment is not a registered code decodes to None and is not stripped. |
| `LocalePath.StripRooted` | composables/useLocale.ts:75-80 | Stripping a rooted path gives a rooted path. Putting the stripped code back in front restores the original path. The one exception is `/{code}` alone, which strips to `/`. |
| `LocalePath.LocalePathRoundTrip` | composables/useLocale.ts:36-80 | For a registered locale and a plain path, stripping the localized path gives the normalized path. Decoding it gives the locale, or None for the default locale. In the default case the normalized path must carry no locale segment of its own. |
| `LocalePath.DefaultLocaleAmbiguity` | composables/useLocale.ts:51-52 | Under `en`, `/vi/about` is encoded unchanged, then decoded as `vi` and stripped to `/about`. This is why the round trip needs its condition. |
| `LocalePath.CurrentLocaleName` | composables/useLocale.ts:140-142 | An unknown code is displayed as the code itself. |
| `LocalePath.CurrentLocaleNames` | composables/useLocale.ts:140-142 | `en` is displayed as `English` and `vi` as `Vietnamese`. Every unregistered code is displayed as itself. |
| `LocalePath.LocaleOptions` | composables/useLocale.ts:147-152 | There is one option per locale, in order. Its value is the code. Its label is the name, or the code when the name is empty. |
| `LocalePath.AvailableLocales` | composables/useLocale.ts:147-152 | The selector offers `en`/`English` then `vi`/`Vietnamese`. |
| `LocaleSwitch.SwitchTargetPath` | composables/useLocale.ts:117-122 | The target of a rooted route is rooted. Away from the default locale it starts with `/{new code}`. `SwitchTargetIsLocalePath` and `SwitchTargetRoundTrip` relate it to `getLocalePath` and to the codec. |
| `LocaleSwitch.SwitchTargetIsLocalePath` | composables/useLocale.ts:117-122 | The navigation target is what `getLocalePath` gives under the new locale for the current path after its prefix is stripped. |
| `LocaleSwitch.SwitchTargetRoundTrip` | composables/useLocale.ts:117-122 | The target decodes to the new locale, or to None for `en`. The target strips to the same page as the current route. |
| `LocaleSwitch.LocaleCookie` | composables/useLocale.ts:89 | The cookie is named `i18n_redirected`, is scoped to `/`, and holds the code. |
| `LocaleSwitch.SwitchLocaleBounds` | composables/useLocale.ts:96-135 | About `SwitchLocaleSpec`, the pure model of one `switchLocale` call (the state after it, which `LocaleSwitcher.SwitchLocale` is proved to reach): every switch keeps the active locale registered. The locale changes only to the requested code. The cookie changes only to `i18n_redirected=<new code>; path=/`, and only in the browser. A navigation is appended only together with a locale change, with the re-prefixed path, the original query and `replace: true`. The log grows by at most one line and keeps its old lines. |
| `LocaleSwitch.UnknownLocaleIsNoOp` | composables/useLocale.ts:99-102 | An unknown code changes nothing except the log, which gains the warning `Invalid locale: <code>`. |
| `LocaleSwitch.SameLocaleIsNoOp` | composables/useLocale.ts:105-106 | Switching to the active locale changes nothing: no cookie, no navigation, no log line. |
| `LocaleSwitch.SwitchSucceeds` | composables/useLocale.ts:108-130 | A switch to a different registered code with no failure does three things. It sets the locale. It writes the cookie when in the browser. It replace-navigates to the re-prefixed path with the query kept. The log is untouched. A throwing cookie write outside the browser is never reached, so that case succeeds too. |
| `LocaleSwitch.FailureIsCaught` | composables/useLocale.ts:132-134 | A throwing effect is caught. Nothing is navigated, and exactly one `Failed to switch locale:` line is logged. Effects applied before the failure stay applied. |
| `LocaleSwitch.SwitchToVietnameseExample` | composables/useLocale.ts:96-135 | From `en` on a one-segment page such as `/pricing`, switching to `vi` stores `vi` in the cookie and replace-navigates to `/vi/pricing` with the query kept. |
| `LocaleSwitch.PricingIsPlainPage` | composables/useLocale.ts:96-135 | `pricing` is such a page: it holds no `/` and is not a locale code. |
| `LocaleSwitch.SwitchToDefaultExample` | composables/useLocale.ts:96-135 | From `vi` on `/vi/pricing`, switching to `en` stores `en` and replace-navigates to `/pricing`. |
| `LocaleSwitch.TargetVietnameseExample` | composables/useLocale.ts:117-122 | The target of switching to `vi` on a one-segment page such as `/pricing` is `/vi/pricing`. |
| `LocaleSwitch.TargetNonDefault` | composables/useLocale.ts:120-122 | Away from the default locale, a route path with no prefix is targeted behind `/{new code}`. |
| `LocaleSwitch.TargetDefaultExample` | composables/useLocale.ts:117-122 | The target of switching to `en` on `/vi/pricing` is `/pricing`. |
| `LocaleSwitch.StripUnprefixedExample` | composables/useLocale.ts:75-80 | `/pricing` has no prefix to strip. |
| `LocaleSwitch.LocaleSwitcher.constructor` | composables/useLocale.ts:10 | The switcher starts in a registered locale, with no cookie, no navigation and an empty log. |
| `LocaleSwitch.LocaleSwitcher.SetLocaleCookie` | composables/useLocale.ts:86-90 | The cookie becomes `i18n_redirected=<code>` with path `/`. Nothing else changes. |
| `LocaleSwitch.LocaleSwitcher.SwitchLocale` | composables/useLocale.ts:96-135 | The imperative steps in the source's order leave exactly the state `SwitchLocaleSpec` describes. They keep the active locale registered. |
| `SeoConfig.DefaultsContents` | config/seo.ts:16-20 | The author is `Nuxt Starter Team`. The default social image is `/images/social/og-image.svg`. The title template is `%s - ` followed by the site name. |
| `SeoConfig.PagesContents` | config/seo.ts:35 | The registered pages are exactly `home`, `privacy`, `terms`, `group` and `sales`. |
| `SeoConfig.GetSiteUrl` | config/seo.ts:5-8 | The site URL is the configured one when there is one, else `""`. |
| `SeoConfig.NormalizeUrl` | config/seo.ts:11 | The result always starts with `/`. A path that already starts with `/` is returned unchanged. Any other path gets `/` in front. |
| `SeoConfig.NormalizeUrlIdempotent` | config/seo.ts:11 | Normalizing twice gives the same result as normalizing once. |
| `SeoConfig.GenerateUrl` | config/seo.ts:41-44 | A page URL always starts with the site URL followed by `/`. |
| `SeoConfig.GenerateUrlSlashInsensitive` | config/seo.ts:41-44 | `about` and `/about` build the same URL, which is the origin + `/about`. |
| `SeoConfig.GenerateUrlWithoutOrigin` | config/seo.ts:41-44 | With no origin configured, or an empty one, a page URL is the normalized path. |
| `SeoConfig.PageUrlExample` | config/seo.ts:41-44 | For every origin, `generateUrl("about")` and `generateUrl("/about")` are both origin + `/about`. |
| `SeoConfig.ImageUrlPassthrough` | config/seo.ts:47-50 | An image path starting with `http` is returned unchanged. |
| `SeoConfig.GenerateImageUrl` | config/seo.ts:47-53 | An image URL is the path itself or starts with the site URL followed by `/`. `ImageUrlPassthrough` and `ImageUrlIsPageUrl` say which. |
| `SeoConfig.ImageUrlIsPageUrl` | config/seo.ts:47-53 | Any other image path is built exactly like a page URL, so it starts with the origin + `/`. |
| `SeoConfig.ImageUrlExamples` | config/seo.ts:47-53 | `https://cdn.example/x.png` is kept. `/img.png` becomes the origin + `/img.png`. |
| `Seo.GetPageConfig` | composables/useSeo.ts:17-26 | The result is None exactly when the page name is empty or not registered. Otherwise it holds the translations of `seo.pages.<name>.title`, `.description` and `.keywords`. |
| `Seo.FirstTruthy` | composables/useSeo.ts:34-36 | The chain of `or` operators over the candidates ending in `last` yields the first truthy candidate, or `last` when no candidate is truthy. |
| `Seo.FirstTruthyPair` | composables/useSeo.ts:34-36 | The `or` chain of two optional candidates and a final value, case by case. |
| `Seo.PageConfigFor` | composables/useSeo.ts:31 | A page config is consulted exactly when the page name is truthy and registered. It is then `getPageConfig` of that name. |
| `Seo.MergeSeoConfig` | composables/useSeo.ts:29-41 | The URL is `generateUrl(route.path)`. The image is never empty. The type is `website` or the one in the options. `MergePrecedence`, `MergeFallbacks` and `UrlIgnoresOptions` give each field in full. |
| `Seo.MergePrecedence` | composables/useSeo.ts:29-41 | For each of title, description and keywords: a non-empty option wins; failing that, the page's non-empty translation; failing that, the translated site default. |
| `Seo.EmptyOptionDoesNotOverride` | composables/useSeo.ts:34 | An empty-string title option merges exactly as an absent one. |
| `Seo.MergeFallbacks` | composables/useSeo.ts:37-38 | For any options: a non-empty image option is used, anything else gives the default social image. A given type is used, otherwise `website`. This covers the page config `updatePageSeo` passes, which has neither. |
| `Seo.UrlIgnoresOptions` | composables/useSeo.ts:39 | The URL is always `generateUrl(route.path)`. No option and no page name changes it. |
| `Seo.PageTranslationsUsed` | composables/useSeo.ts:29-41 | Merging `{}` with a registered page whose translations are present gives that page's title, description and keywords. |
| `Seo.CustomTitleOnHome` | composables/useSeo.ts:29-41 | Merging `{title: "Custom"}` with `home` gives the custom title, and description and keywords from the `home` page. |
| `Seo.UnknownPageGivesDefaults` | composables/useSeo.ts:29-41 | An unregistered page name gives the translated site defaults, the default image, `website` and the route's URL. |
| `Seo.MetaOf` | composables/useSeo.ts:47-66 | The generic, Open Graph and Twitter tags share one title, one description and one image URL, which is `generateImageUrl` of the merged image. The author and the Twitter card, creator and site are the configured ones. |
| `Seo.HeadTagsOf` | composables/useSeo.ts:68-72 | `lang` is the active locale. The one link is `canonical` to the merged URL. The template's site title is `t("site.title")`. |
| `Seo.ApplyTitleTemplate` | composables/useSeo.ts:69 | The rendered title always ends with the site title. A non-empty chunk comes first, followed by ` - `. With no chunk, or an empty one, the title is the site title alone. |
| `Seo.HeadConsistent` | composables/useSeo.ts:50-72 | The canonical link and `og:url` are the same page URL, and the page language is the active locale. |
| `Seo.RoutePageName` | composables/useSeo.ts:45 | The page name is the route's name when that name is a string. Otherwise it is None. |
| `Seo.SeoHead.UpdateSeoMeta` | composables/useSeo.ts:43-73 | Sets the meta tags and the head from the merge, with the route's name as the page name. Adds no warning. |
| `Seo.SeoHead.UpdatePageSeo` | composables/useSeo.ts:75-91 | The head is always fully emitted, with `getPageConfig(pageName)` as the options. An empty name adds `Page name is required`. An unregistered name adds `Page "<name>" is not defined in seoConfig.pages`. A registered name adds no warning. |
| `Seo.PageSeoTitle` | composables/useSeo.ts:75-91 | For a registered page with a present title translation, `updatePageSeo` emits that title in the generic, Open Graph and Twitter tags, whatever the route is called. |
| `Social.GetSocialConfigByLocale` | config/social.ts:42-44 | `vi` gets the Vietnamese links. Every other code gets the global ones. |
| `Social.Keys` | config/social.ts:51-54 | `Object.keys`: the keys of the entries, in order. |
| `Social.Values` | config/social.ts:61-62 | `Object.values`: the links of the entries, in order. |
| `Social.GetAvailableSocialKeys` | config/social.ts:51-54 | `vi` offers `blog` and `github`. Every other code offers `twitter`, `facebook` and `linkin`. |
| `Social.ValidateSocialConfig` | config/social.ts:61-68 | A configuration is valid exactly when every entry has a name and an icon, and its URL is absent, empty or starts with `https://`. |
| `Social.EmptyConfigValid` | config/social.ts:61-68 | A configuration with no entries is valid. |
| `Social.ShippedConfigsInvalid` | config/social.ts:4-68 | Both shipped configurations fail validation, because each has an entry linked to `#`. |
| `Showcase.GetShowcaseItems` | config/showcase.ts:114-116 | There are six items. |
| `Showcase.GetShowcaseItemByIndex` | config/showcase.ts:119-121 | The item at a valid index is returned. Outside `0 <= index < 6` the result is `undefined` (None). |
| `Showcase.ValidateShowcaseItem` | config/showcase.ts:124-133 | An item is valid exactly when it has a type and an image, every platform has a name and an icon, and every tag has a name, an icon and a color. |
| `Showcase.BareItemValid` | config/showcase.ts:124-133 | An item with a type and an image but no platforms and no tags is valid. |
| `Showcase.ColorlessTagFails` | config/showcase.ts:131 | A single tag without a color makes the item invalid. |
| `Showcase.ShippedItemsValid` | config/showcase.ts:5-133 | Each of the six shipped items passes validation. |
| `Strings.Split` | composables/useLocale.ts:65 | `split` always returns at least one piece, and no piece contains the separator. |
| `Strings.JoinSplit` | composables/useLocale.ts:65 | Joining the pieces of `split` with the separator gives back the original string. |
| `Strings.EveryIff` | config/social.ts:62 | `every` holds exactly when the predicate holds at every index. |

## Left out

- The cookie's one-year `expires` attribute is not modelled. It is computed from `new Date()`, a clock reading. The cookie keeps only its name, value and path.
- `switchLocale` is asynchronous. The model treats each call as one atomic step, so interleaved calls are not modelled.
- `LocaleSwitch.SwitchLocaleSpec`: two choices about the foreign call `setLocale` are made here. It is all-or-nothing: when it throws, the active locale is unchanged, which is why `FailureIsCaught` can promise the old locale in that case. And `route.path` is taken when the call starts, while the source reads the reactive `route` only after `await setLocale(newLocale)`; a route change made by `setLocale` itself is not modelled.
- Strings are sequences of Unicode scalar values, not of UTF-16 code units. `length` and `substring` in JavaScript count UTF-16 units. So `RemoveLocalePrefix` differs from `removeLocalePrefix` on a path that is not rooted and whose first segment holds a character outside the Basic Multilingual Plane: for `"😀/vi/x"` the source gives `vi/x` and the model gives `i/x`. Rooted paths, such as every `route.path`, are not affected.
- The error object passed to `console.error` is not kept; only the message line is logged.
- `process.client`, the faults of `setLocale`, the cookie write and `navigateTo`, the runtime site URL and the route are inputs of the model. They are not read from the framework.
- The translation function `t` is arbitrary: the translation files and the i18n library are not part of this model. `t` is applied whenever the merge would call it. The title template, which in the source calls `t("site.title")` lazily each time it renders, is modelled with the site title computed once.
- `SeoConfig.SeoDefaults`: `NUXT_PUBLIC_SITE_NAME` is an input. The `titleTemplate` default is modelled but not used by the composer, which builds its own template, as the source does.
- Facebook's `appId` (an empty string) and the other `i18nConfig` options (browser-language detection, lazy loading, precompilation, fallback locale) are constants of the framework wiring with no behaviour in the core. Only `DEFAULT_LOCALE` and `LOCALES` are modelled.
- `Array.isArray` in `validateShowcaseItem` always holds in the model, because platforms and tags are sequences by type.
- `Showcase.GetShowcaseItemByIndex` takes an integer index. JavaScript's non-integer and string indices are not modelled.
- `ogType` is taken as a variant of the Open Graph type union, as the type declaration restricts it. The `as OGType` cast of an arbitrary string is not modelled.
- The page title chunk that the head library passes to the template is an input (`ApplyTitleTemplate`). How the library picks it is not modelled.
