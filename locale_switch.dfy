/**
 * `switchLocale` of the locale composable (composables/useLocale.ts): check
 * the code against the registry, do nothing for an unknown code (with a
 * warning) or for the active one, else set the locale, write the
 * `i18n_redirected` cookie when running in the browser, and replace-navigate
 * to the current path re-prefixed for the new locale, keeping the query.
 * Every exception is caught and logged.
 *
 * The locale setter, the cookie jar and the router become fields of the
 * switcher: the active locale, the last cookie written and the log of
 * navigations. Which of the three effects throws, if any, is a parameter.
 */
module LocaleSwitch {
  import opened Wrappers
  import opened Strings
  import opened Routing
  import opened LocaleRegistry
  import opened LocalePath

  /** The cookie the i18n module reads back to pick the locale on the next visit. */
  const CookieName: string := "i18n_redirected"

  /** A cookie as written by `setLocaleCookie`; its one-year expiry is not modelled. */
  datatype Cookie = Cookie(name: string, value: string, path: string)

  /** `i18n_redirected=<code>; path=/`: the site-wide cookie whose value is the code. */
  function LocaleCookie(code: string): (r: Cookie)
    ensures r.name == "i18n_redirected" && r.path == "/" && r.value == code
  {
    Cookie(CookieName, code, "/")
  }

  /** A call of the navigation primitive. */
  datatype Navigation = Navigation(path: string, query: Query, replace: bool)

  /** `console.warn` and `console.error` lines. */
  datatype LogEntry = Warning(message: string) | Error(message: string)

  /** Which effect of a switch throws, if any. */
  datatype Fault = NoFault | SetLocaleThrows | CookieThrows | NavigationThrows

  /** What a switch can change. */
  datatype SwitcherState = SwitcherState(locale: string, cookie: Option<Cookie>, navigations: seq<Navigation>, log: seq<LogEntry>)

  const SwitchFailed: LogEntry := Error("Failed to switch locale:")

  function InvalidLocale(code: string): LogEntry {
    Warning("Invalid locale: " + code)
  }

  /** The path `switchLocale` navigates to: the route path stripped, then prefixed unless the new locale is the default. */
  function SwitchTargetPath(newLocale: string, routePath: string): (r: string)
    ensures StartsWith(routePath, "/") ==> StartsWith(r, "/")
    ensures newLocale != DefaultLocale ==> StartsWith(r, "/" + newLocale)
  {
    SwitchTargetShape(newLocale, routePath);
    if newLocale == DefaultLocale then RemoveLocalePrefix(routePath) else "/" + newLocale + RemoveLocalePrefix(routePath)
  }

  /** The shape facts behind the contract of `SwitchTargetPath`. */
  lemma SwitchTargetShape(newLocale: string, routePath: string)
    ensures StartsWith(routePath, "/") ==> StartsWith(RemoveLocalePrefix(routePath), "/")
    ensures StartsWith("/" + newLocale + RemoveLocalePrefix(routePath), "/" + newLocale)
    ensures StartsWith("/" + newLocale + RemoveLocalePrefix(routePath), "/")
  {
    if StartsWith(routePath, "/") {
      StripRooted(routePath);
    }
    PrefixedShape("/" + newLocale, RemoveLocalePrefix(routePath));
  }

  /**
   * The target of a switch is what `getLocalePath` gives, under the new
   * locale, for the current page with its old prefix removed.
   */
  lemma SwitchTargetIsLocalePath(newLocale: string, routePath: string, anyRoute: string)
    requires StartsWith(routePath, "/")
    ensures SwitchTargetPath(newLocale, routePath) == GetLocalePath(RemoveLocalePrefix(routePath), newLocale, anyRoute)
  {
    var stripped := RemoveLocalePrefix(routePath);
    StripRooted(routePath);
    RootedIsPlain(stripped);
  }

  /**
   * After a switch, the target path decodes to the new locale (nothing for
   * the default one) and strips back to the same page as before.
   */
  lemma SwitchTargetRoundTrip(newLocale: string, routePath: string)
    requires IsRegistered(newLocale) && StartsWith(routePath, "/")
    requires newLocale == DefaultLocale ==> ExtractLocaleFromPath(RemoveLocalePrefix(routePath)).None?
    ensures ExtractLocaleFromPath(SwitchTargetPath(newLocale, routePath))
         == if newLocale == DefaultLocale then None else Some(newLocale)
    ensures RemoveLocalePrefix(SwitchTargetPath(newLocale, routePath)) == RemoveLocalePrefix(routePath)
  {
    var stripped := RemoveLocalePrefix(routePath);
    StripRooted(routePath);
    RootedIsPlain(stripped);
    SwitchTargetIsLocalePath(newLocale, routePath, routePath);
    LocalePathRoundTrip(stripped, newLocale, routePath);
  }

  /**
   * One call of `switchLocale(newLocale)` from state `s`, on route `route`,
   * in the browser when `isClient`, with `fault` naming the effect that
   * throws. Each call is one atomic step; overlapping calls are not modelled.
   */
  function SwitchLocaleSpec(s: SwitcherState, newLocale: string, route: Route, isClient: bool, fault: Fault): SwitcherState {
    if newLocale !in LocalesMap() then
      s.(log := s.log + [InvalidLocale(newLocale)])
    else if s.locale == newLocale then
      s
    else if fault == SetLocaleThrows then
      s.(log := s.log + [SwitchFailed])
    else
      var switched := s.(locale := newLocale);
      if isClient && fault == CookieThrows then
        switched.(log := s.log + [SwitchFailed])
      else
        var persisted := if isClient then switched.(cookie := Some(LocaleCookie(newLocale))) else switched;
        if fault == NavigationThrows then
          persisted.(log := s.log + [SwitchFailed])
        else
          var nav := Navigation(SwitchTargetPath(newLocale, route.path), route.query, true);
          persisted.(navigations := s.navigations + [nav])
  }

  /**
   * What any switch may change: the active locale stays registered and
   * changes only to the requested code; the cookie changes only to that
   * code, in the browser; a navigation is appended only with a locale
   * change, to the re-prefixed path with the query kept and history
   * replaced; the log grows by at most one line and keeps its old lines.
   */
  lemma SwitchLocaleBounds(s: SwitcherState, newLocale: string, route: Route, isClient: bool, fault: Fault)
    ensures var r := SwitchLocaleSpec(s, newLocale, route, isClient, fault);
      && (IsRegistered(s.locale) ==> IsRegistered(r.locale))
      && (r.locale == s.locale || (r.locale == newLocale && IsRegistered(newLocale)))
      && (r.cookie == s.cookie || (isClient && r.locale == newLocale && r.cookie == Some(LocaleCookie(newLocale))))
      && (r.navigations == s.navigations
          || (r.locale == newLocale != s.locale
              && r.navigations == s.navigations + [Navigation(SwitchTargetPath(newLocale, route.path), route.query, true)]))
      && (r.log == s.log || (|r.log| == |s.log| + 1 && r.log[..|s.log|] == s.log))
  {
    var r := SwitchLocaleSpec(s, newLocale, route, isClient, fault);
    if newLocale in LocalesMap() {
      assert IsRegistered(newLocale);
    }
    assert r.log == s.log || r.log == s.log + [r.log[|s.log|]];
  }

  /** An unknown code changes nothing but the log, which gains one warning. */
  lemma UnknownLocaleIsNoOp(s: SwitcherState, newLocale: string, route: Route, isClient: bool, fault: Fault)
    requires !IsRegistered(newLocale)
    ensures SwitchLocaleSpec(s, newLocale, route, isClient, fault) == s.(log := s.log + [InvalidLocale(newLocale)])
  {
  }

  /** Switching to the active locale changes nothing at all. */
  lemma SameLocaleIsNoOp(s: SwitcherState, route: Route, isClient: bool, fault: Fault)
    requires IsRegistered(s.locale)
    ensures SwitchLocaleSpec(s, s.locale, route, isClient, fault) == s
  {
  }

  /**
   * A valid, different code with no failure sets the locale, writes the
   * cookie in the browser, and replace-navigates to the re-prefixed path
   * with the query kept; the log is untouched. A throwing cookie write
   * outside the browser is never reached, so it succeeds too.
   */
  lemma SwitchSucceeds(s: SwitcherState, newLocale: string, route: Route, isClient: bool, fault: Fault)
    requires IsRegistered(newLocale) && newLocale != s.locale
    requires fault == NoFault || (fault == CookieThrows && !isClient)
    ensures var r := SwitchLocaleSpec(s, newLocale, route, isClient, fault);
      && r.locale == newLocale
      && r.cookie == (if isClient then Some(LocaleCookie(newLocale)) else s.cookie)
      && r.navigations == s.navigations + [Navigation(SwitchTargetPath(newLocale, route.path), route.query, true)]
      && r.log == s.log
  {
  }

  /**
   * A thrown effect is caught: no navigation happens, one error is logged,
   * and the effects before it stay applied (the locale set before a cookie
   * or navigation failure is not rolled back).
   */
  lemma FailureIsCaught(s: SwitcherState, newLocale: string, route: Route, isClient: bool, fault: Fault)
    requires IsRegistered(newLocale) && newLocale != s.locale && fault != NoFault
    requires fault == CookieThrows ==> isClient
    ensures var r := SwitchLocaleSpec(s, newLocale, route, isClient, fault);
      && r.navigations == s.navigations
      && r.log == s.log + [SwitchFailed]
      && r.locale == (if fault == SetLocaleThrows then s.locale else newLocale)
      && r.cookie == (if fault == NavigationThrows && isClient then Some(LocaleCookie(newLocale)) else s.cookie)
  {
  }

  /** `/pricing` has no locale prefix to lose. */
  lemma StripUnprefixedExample()
    ensures RemoveLocalePrefix("/pricing") == "/pricing"
  {
    RegistryContents();
    assert "/pricing" == "/" + "pricing" + "";
    UnprefixedPath("pricing", "");
  }

  /** Away from the default locale, the target is the stripped route path behind `/{code}`. */
  lemma TargetNonDefault(newLocale: string, routePath: string, target: string)
    requires newLocale != DefaultLocale && RemoveLocalePrefix(routePath) == routePath
    requires target == "/" + newLocale + routePath
    ensures SwitchTargetPath(newLocale, routePath) == target
  {
  }

  /** Switching to `vi` on a one-segment page such as `/pricing` targets `/vi/pricing`. */
  lemma TargetVietnameseExample(page: string)
    requires '/' !in page && !IsRegistered(page)
    ensures SwitchTargetPath("vi", "/" + page) == "/vi/" + page
  {
    assert "/" + page == "/" + page + "";
    UnprefixedPath(page, "");
    assert "/vi/" + page == "/" + "vi" + ("/" + page);
    TargetNonDefault("vi", "/" + page, "/vi/" + page);
  }

  /** Switching to `en` on `/vi/pricing` targets `/pricing`. */
  lemma TargetDefaultExample()
    ensures SwitchTargetPath("en", "/vi/pricing") == "/pricing"
  {
    RegistryContents();
    assert "/vi/pricing" == "/" + "vi" + "/pricing";
    PrefixedPath("vi", "/pricing");
  }

  /**
   * From `en` on a one-segment page such as `/pricing`, switching to `vi`
   * persists `vi` and replace-navigates to `/vi/pricing`, query kept.
   */
  lemma SwitchToVietnameseExample(s: SwitcherState, query: Query, page: string)
    requires s.locale == "en" && '/' !in page && !IsRegistered(page)
    ensures var r := SwitchLocaleSpec(s, "vi", Route("/" + page, query, Unnamed), true, NoFault);
      && r.locale == "vi"
      && r.cookie == Some(Cookie("i18n_redirected", "vi", "/"))
      && r.navigations == s.navigations + [Navigation("/vi/" + page, query, true)]
  {
    assert Locales[1].code == "vi";
    SwitchSucceeds(s, "vi", Route("/" + page, query, Unnamed), true, NoFault);
    TargetVietnameseExample(page);
  }

  /** `pricing` is such a page. */
  lemma PricingIsPlainPage()
    ensures '/' !in "pricing" && !IsRegistered("pricing")
  {
    RegistryContents();
  }

  /** From `vi` on `/vi/pricing`, switching to `en` navigates to `/pricing`. */
  lemma SwitchToDefaultExample(s: SwitcherState, query: Query)
    requires s.locale == "vi"
    ensures var r := SwitchLocaleSpec(s, "en", Route("/vi/pricing", query, Unnamed), true, NoFault);
      && r.locale == "en"
      && r.cookie == Some(Cookie("i18n_redirected", "en", "/"))
      && r.navigations == s.navigations + [Navigation("/pricing", query, true)]
  {
    assert Locales[0].code == "en";
    SwitchSucceeds(s, "en", Route("/vi/pricing", query, Unnamed), true, NoFault);
    TargetDefaultExample();
  }

  /** The switcher: the active locale with the client-side effects a switch has. */
  class LocaleSwitcher {
    var locale: string
    var cookie: Option<Cookie>
    var navigations: seq<Navigation>
    var log: seq<LogEntry>

    /** The active locale is always one of the registry's. */
    ghost predicate Valid()
      reads this
    {
      IsRegistered(locale)
    }

    function State(): SwitcherState
      reads this
    {
      SwitcherState(locale, cookie, navigations, log)
    }

    constructor (initial: string)
      requires IsRegistered(initial)
      ensures Valid()
      ensures State() == SwitcherState(initial, None, [], [])
    {
      locale := initial;
      cookie := None;
      navigations := [];
      log := [];
    }

    /** `setLocaleCookie`: `document.cookie = "i18n_redirected=<code>; ...; path=/"`. */
    method SetLocaleCookie(code: string)
      modifies this`cookie
      ensures cookie == Some(LocaleCookie(code))
    {
      cookie := Some(LocaleCookie(code));
    }

    /** `switchLocale(newLocale)`, with the steps in the source's order and the `try`/`catch` as early returns. */
    method SwitchLocale(newLocale: string, route: Route, isClient: bool, fault: Fault)
      requires Valid()
      modifies this
      ensures Valid()
      ensures State() == SwitchLocaleSpec(old(State()), newLocale, route, isClient, fault)
    {
      if newLocale !in LocalesMap() {
        log := log + [InvalidLocale(newLocale)];
        return;
      }
      if locale == newLocale {
        return;
      }
      if fault == SetLocaleThrows {
        log := log + [SwitchFailed];
        return;
      }
      locale := newLocale;
      if isClient {
        if fault == CookieThrows {
          log := log + [SwitchFailed];
          return;
        }
        SetLocaleCookie(newLocale);
      }
      var newPath := SwitchTargetPath(newLocale, route.path);
      if fault == NavigationThrows {
        log := log + [SwitchFailed];
        return;
      }
      navigations := navigations + [Navigation(newPath, route.query, true)];
    }
  }
}
