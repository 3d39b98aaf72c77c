/**
 * Social links per locale (config/social.ts): two fixed configurations, a
 * lookup by locale, the list of keys and a validator. A configuration is a
 * record keyed by platform; it is modelled as its entries in key order,
 * which is the order `Object.keys` and `Object.values` report.
 */
module Social {
  import opened Wrappers
  import opened Strings

  datatype SocialLink = SocialLink(name: string, url: Option<string>, icon: string)

  datatype SocialEntry = SocialEntry(key: string, link: SocialLink)

  type SocialConfig = seq<SocialEntry>

  /** `globalSocialConfig`. */
  const GlobalSocialConfig: SocialConfig := [
    SocialEntry("twitter", SocialLink("Twitter", Some("#"), "simple-icons:twitter")),
    SocialEntry("facebook", SocialLink("Facebook", Some("/"), "simple-icons:facebook")),
    SocialEntry("linkin", SocialLink("Linkin", Some("/"), "simple-icons:linkin"))
  ]

  /** `viSocialConfig`. */
  const ViSocialConfig: SocialConfig := [
    SocialEntry("blog", SocialLink("Blog", Some("https://hieu98.space"), "simple-icons:blogger")),
    SocialEntry("github", SocialLink("GitHub", Some("#"), "lucide:github"))
  ]

  /** `getSocialConfigByLocale`: the Vietnamese links for `vi`, the global ones for anything else. */
  function GetSocialConfigByLocale(locale: string): (r: SocialConfig)
    ensures locale == "vi" ==> r == ViSocialConfig
    ensures locale != "vi" ==> r == GlobalSocialConfig
  {
    if locale == "vi" then ViSocialConfig else GlobalSocialConfig
  }

  /** `Object.keys(config)`. */
  function Keys(config: SocialConfig): (r: seq<string>)
    ensures |r| == |config|
    ensures forall i :: 0 <= i < |config| ==> r[i] == config[i].key
  {
    if config == [] then [] else [config[0].key] + Keys(config[1..])
  }

  /** `Object.values(config)`. */
  function Values(config: SocialConfig): (r: seq<SocialLink>)
    ensures |r| == |config|
    ensures forall i :: 0 <= i < |config| ==> r[i] == config[i].link
  {
    if config == [] then [] else [config[0].link] + Values(config[1..])
  }

  /** `getAvailableSocialKeys`: `vi` offers blog and GitHub; every other locale twitter, facebook and linkin. */
  function GetAvailableSocialKeys(locale: string): (r: seq<string>)
    ensures locale == "vi" ==> r == ["blog", "github"]
    ensures locale != "vi" ==> r == ["twitter", "facebook", "linkin"]
  {
    Keys(GetSocialConfigByLocale(locale))
  }

  /** One entry passes when it has a name and an icon, and its URL, if any, is `https://`. */
  predicate SocialLinkValid(item: SocialLink) {
    item.name != "" && item.icon != "" && (Truthy(item.url) ==> StartsWith(item.url.value, "https://"))
  }

  /**
   * `validateSocialConfig`: every value passes, that is, each entry has a
   * name, an icon, and no URL or an `https://` one.
   */
  function ValidateSocialConfig(config: SocialConfig): (r: bool)
    ensures r <==> forall i :: 0 <= i < |config| ==>
      config[i].link.name != "" && config[i].link.icon != ""
      && (config[i].link.url.None? || config[i].link.url.value == "" || StartsWith(config[i].link.url.value, "https://"))
  {
    EveryIff(Values(config), SocialLinkValid);
    Every(Values(config), SocialLinkValid)
  }

  /** An empty configuration is valid. */
  lemma EmptyConfigValid()
    ensures ValidateSocialConfig([])
  {
  }

  /** Neither shipped configuration passes: each links one entry to `#`. */
  lemma ShippedConfigsInvalid()
    ensures !ValidateSocialConfig(GlobalSocialConfig)
    ensures !ValidateSocialConfig(ViSocialConfig)
  {
    NotStartsWithOtherHead("#", "https://");
    assert !SocialLinkValid(GlobalSocialConfig[0].link);
    assert !SocialLinkValid(ViSocialConfig[1].link);
  }
}
