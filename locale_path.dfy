/**
 * The "prefix except default" path codec of the locale composable
 * (composables/useLocale.ts): paths of the default locale carry no prefix,
 * paths of every other locale start with `/{code}`. External links
 * (anything starting with `http`) and fragments (`#...`) are special-cased.
 * Also the two read-only views the composable exposes: the display name of
 * the active locale and the list of locale options.
 */
module LocalePath {
  import opened Wrappers
  import opened Strings
  import opened LocaleRegistry

  /** An external link, passed through untouched. */
  predicate IsExternal(path: string) {
    StartsWith(path, "http")
  }

  /** A fragment link, resolved against the current page. */
  predicate IsFragment(path: string) {
    StartsWith(path, "#")
  }

  /** A path that is neither an external link nor a fragment. */
  predicate IsPlain(path: string) {
    !IsExternal(path) && !IsFragment(path)
  }

  /** `normalizePath`: prepend `/` unless the path starts with `/`, `http` or `#`. */
  function NormalizePath(path: string): (r: string)
    ensures r == path || r == "/" + path
    ensures r == "/" + path <==> !StartsWith(path, "/") && IsPlain(path)
    ensures IsPlain(path) ==> StartsWith(r, "/")
  {
    if !StartsWith(path, "/") && !StartsWith(path, "http") && !StartsWith(path, "#") then
      StartsWithConcat("/", path);
      "/" + path
    else
      path
  }

  /** A path that starts with `/` is neither external nor a fragment. */
  lemma RootedIsPlain(path: string)
    requires StartsWith(path, "/")
    ensures IsPlain(path)
  {
    NotStartsWithOtherHead(path, "http");
    NotStartsWithOtherHead(path, "#");
  }

  /** Normalizing twice is normalizing once. */
  lemma NormalizePathIdempotent(path: string)
    ensures NormalizePath(NormalizePath(path)) == NormalizePath(path)
  {
    var n := NormalizePath(path);
    if n != path {
      RootedIsPlain(n);
    }
  }

  /** What `getLocalePath` puts in front of a fragment: the current path, with the root page as "". */
  function CurrentPagePath(routePath: string): string {
    if routePath == "/" then "" else routePath
  }

  /**
   * `getLocalePath(path)` with the active locale `locale` and the current
   * route path `routePath`.
   */
  function GetLocalePath(path: string, locale: string, routePath: string): (r: string)
    ensures IsExternal(path) ==> r == path
    ensures IsFragment(path) ==> EndsWith(r, path)
    ensures IsPlain(path) ==> StartsWith(r, "/")
  {
    if StartsWith(path, "http") then path
    else if StartsWith(path, "#") then
      var r := CurrentPagePath(routePath) + path;
      assert r[|r| - |path|..] == path;
      r
    else
      var normalizedPath := NormalizePath(path);
      if locale == DefaultLocale then normalizedPath
      else
        StartsWithConcat("/", locale + normalizedPath);
        assert "/" + locale + normalizedPath == "/" + (locale + normalizedPath);
        "/" + locale + normalizedPath
  }

  /** External links come back unchanged whatever the active locale and route. */
  lemma ExternalPassthrough(path: string, locale: string, routePath: string)
    requires IsExternal(path)
    ensures GetLocalePath(path, locale, routePath) == path
  {
  }

  /**
   * A fragment is appended to the current page's path and is never given a
   * locale prefix: the result does not depend on the active locale.
   */
  lemma FragmentStaysOnPage(path: string, locale: string, other: string, routePath: string)
    requires IsFragment(path)
    ensures GetLocalePath(path, locale, routePath) == CurrentPagePath(routePath) + path
    ensures GetLocalePath(path, locale, routePath) == GetLocalePath(path, other, routePath)
  {
    NotStartsWithOtherHead(path, "http");
  }

  /**
   * A plain path is normalized, and prefixed with `/{locale}` exactly when the
   * active locale is not the default one; the route plays no part.
   */
  lemma PlainPathPrefix(path: string, locale: string, routePath: string)
    requires IsPlain(path)
    ensures locale == DefaultLocale ==> GetLocalePath(path, locale, routePath) == NormalizePath(path)
    ensures locale != DefaultLocale ==> GetLocalePath(path, locale, routePath) == "/" + locale + NormalizePath(path)
  {
  }

  /** The segment at index 1 of `path.split("/")`, if there is one. */
  function SecondSegment(path: string): Option<string> {
    var segments := Split(path, '/');
    if |segments| > 1 then Some(segments[1]) else None
  }

  /**
   * `extractLocaleFromPath`: segment 1 of `path.split("/")` when it is exactly a
   * registered code, else None.
   */
  function ExtractLocaleFromPath(path: string): (r: Option<string>)
    ensures r.Some? ==> IsRegistered(r.value) && SecondSegment(path) == r
    ensures r.None? ==> SecondSegment(path).None? || !IsRegistered(SecondSegment(path).value)
  {
    var possibleLocale := SecondSegment(path);
    if possibleLocale.Some? && IsRegistered(possibleLocale.value) then possibleLocale else None
  }

  /**
   * `removeLocalePrefix`: the path unchanged when it carries no locale code,
   * else the text after `/{code}`, or `/` when nothing follows.
   */
  function RemoveLocalePrefix(path: string): (r: string)
    ensures ExtractLocaleFromPath(path).None? ==> r == path
  {
    match ExtractLocaleFromPath(path)
    case None => path
    case Some(localeCode) =>
      var rest := Substring(path, |localeCode| + 1);
      if rest == "" then "/" else rest
  }

  /**
   * The segment structure of a rooted path: `/seg` followed by nothing or by
   * `/...`, where `seg` holds no `/`, and `seg` is the second segment.
   */
  lemma RootedSegments(seg: string, rest: string)
    requires '/' !in seg
    requires rest == "" || rest[0] == '/'
    ensures SecondSegment("/" + seg + rest) == Some(seg)
  {
    var path := "/" + seg + rest;
    assert path == [] + ['/'] + (seg + rest);
    SplitAfter([], '/', seg + rest);
    if rest == "" {
      assert seg + rest == seg;
      SplitNone(seg, '/');
    } else {
      assert seg + rest == seg + ['/'] + rest[1..];
      SplitAfter(seg, '/', rest[1..]);
    }
  }

  /** A rooted path is `/seg` followed by nothing or by `/...`, with `seg` its second segment. */
  lemma RootedDecompose(path: string)
    requires StartsWith(path, "/")
    ensures var seg := SecondSegment(path);
      seg.Some? && '/' !in seg.value && StartsWith(path, "/" + seg.value)
      && (|path| == |seg.value| + 1 || path[|seg.value| + 1] == '/')
  {
    var tail := path[1..];
    assert path == [] + ['/'] + tail;
    SplitAfter([], '/', tail);
    SplitHead(tail, '/');
    var h := Split(tail, '/')[0];
    assert path[..|h| + 1] == "/" + h;
  }

  /** A locale prefix followed by a rooted (or empty) rest is recognized and stripped. */
  lemma PrefixedPath(code: string, rest: string)
    requires IsRegistered(code)
    requires rest == "" || rest[0] == '/'
    ensures ExtractLocaleFromPath("/" + code + rest) == Some(code)
    ensures RemoveLocalePrefix("/" + code + rest) == if rest == "" then "/" else rest
  {
    RegisteredCodeShape(code);
    RootedSegments(code, rest);
    var path := "/" + code + rest;
    assert path[|code| + 1..] == rest;
  }

  /** A rooted path whose first segment is not a locale code is left alone. */
  lemma UnprefixedPath(seg: string, rest: string)
    requires '/' !in seg && !IsRegistered(seg)
    requires rest == "" || rest[0] == '/'
    ensures ExtractLocaleFromPath("/" + seg + rest) == None
    ensures RemoveLocalePrefix("/" + seg + rest) == "/" + seg + rest
  {
    RootedSegments(seg, rest);
  }

  /**
   * Stripping a rooted path yields a rooted path, and putting the stripped
   * code back in front restores the original (`/vi` strips to `/`, which is
   * the one case where the code was the whole path).
   */
  lemma StripRooted(path: string)
    requires StartsWith(path, "/")
    ensures StartsWith(RemoveLocalePrefix(path), "/")
    ensures match ExtractLocaleFromPath(path)
      case None => RemoveLocalePrefix(path) == path
      case Some(code) =>
        path == "/" + code + RemoveLocalePrefix(path) || (path == "/" + code && RemoveLocalePrefix(path) == "/")
  {
    RootedDecompose(path);
    match ExtractLocaleFromPath(path)
    case None =>
    case Some(code) =>
      var rest := path[|code| + 1..];
      assert path == "/" + code + rest;
      if rest != "" {
        assert rest[0] == path[|code| + 1];
        StartsWithConcat("/", rest[1..]);
        assert "/" + rest[1..] == rest;
      } else {
        StartsWithConcat("/", "");
      }
  }

  /**
   * Round trip of the codec (the "prefix except default" contract). For a
   * registered active locale and a plain path, stripping the localized path
   * gives back the normalized path, and decoding it gives back the locale,
   * or None for the default locale. For the default locale this needs the
   * normalized path not to begin with a locale segment of its own, since
   * nothing tells `/vi/x` written under `en` from `/x` under `vi`.
   */
  lemma {:induction false} LocalePathRoundTrip(path: string, locale: string, routePath: string)
    requires IsRegistered(locale) && IsPlain(path)
    requires locale == DefaultLocale ==> ExtractLocaleFromPath(NormalizePath(path)).None?
    ensures RemoveLocalePrefix(GetLocalePath(path, locale, routePath)) == NormalizePath(path)
    ensures ExtractLocaleFromPath(GetLocalePath(path, locale, routePath))
         == if locale == DefaultLocale then None else Some(locale)
  {
    var n := NormalizePath(path);
    if locale != DefaultLocale {
      assert n[0] == '/';
      PrefixedPath(locale, n);
    }
  }

  /** Under the default locale a path that already carries `/vi` is read back as `vi`. */
  lemma DefaultLocaleAmbiguity()
    ensures GetLocalePath("/vi/about", DefaultLocale, "/") == "/vi/about"
    ensures ExtractLocaleFromPath("/vi/about") == Some("vi")
    ensures RemoveLocalePrefix("/vi/about") == "/about"
  {
    RegistryContents();
    RootedIsPlain("/vi/about");
    assert "/vi/about" == "/" + "vi" + "/about";
    PrefixedPath("vi", "/about");
  }

  /** `localesMap.value.get(code)?.name || code`: the display name of the active locale. */
  function CurrentLocaleName(locale: string): (r: string)
    ensures locale !in LocalesMap() ==> r == locale
  {
    var m := LocalesMap();
    if locale in m then OrElse(m[locale].name, locale) else locale
  }

  /** The registered locales show their configured names; anything else shows its code. */
  lemma CurrentLocaleNames(code: string)
    ensures CurrentLocaleName("en") == "English"
    ensures CurrentLocaleName("vi") == "Vietnamese"
    ensures !IsRegistered(code) ==> CurrentLocaleName(code) == code
  {
    var m := LocalesMap();
    RegistryContents();
    assert m["en"] == Locales[0];
    assert m["vi"] == Locales[1];
  }

  /** An entry of the locale selector. */
  datatype LocaleOption = LocaleOption(value: string, caption: string)

  /** `ls.map(l => ({ value: l.code, label: l.name || l.code }))`. */
  function LocaleOptions(ls: seq<Locale>): (r: seq<LocaleOption>)
    ensures |r| == |ls|
    ensures forall i :: 0 <= i < |ls| ==> r[i].value == ls[i].code && r[i].caption == OrElse(ls[i].name, ls[i].code)
  {
    if ls == [] then []
    else [LocaleOption(ls[0].code, OrElse(ls[0].name, ls[0].code))] + LocaleOptions(ls[1..])
  }

  /**
   * `availableLocales`: one option per registered locale, in registry order;
   * the selector offers English then Vietnamese, labelled with their names.
   */
  function AvailableLocales(): (r: seq<LocaleOption>)
    ensures r == [LocaleOption("en", "English"), LocaleOption("vi", "Vietnamese")]
  {
    LocaleOptions(Locales)
  }
}
