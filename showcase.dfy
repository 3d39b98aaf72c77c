/**
 * The showcase list (config/showcase.ts): six fixed items, index access and
 * an item validator. The item's `type` is kept as a string so that the
 * validator's emptiness check means something for data that did not come
 * from the typed literal.
 */
module Showcase {
  import opened Wrappers
  import opened Strings

  datatype Platform = Platform(name: string, icon: string)

  datatype ColorTag = ColorTag(name: string, icon: string, color: string)

  datatype ShowcaseItem = ShowcaseItem(
    id: Option<string>,
    kind: string,
    image: string,
    link: Option<string>,
    platforms: seq<Platform>,
    qrCode: Option<string>,
    qrCodeDescription: Option<string>,
    tags: seq<ColorTag>,
    isOnline: bool)

  const ChromeWeb: Platform := Platform("Web", "simple-icons:googlechrome")
  const Ios: Platform := Platform("iOS", "simple-icons:apple")
  const Android: Platform := Platform("Android", "simple-icons:android")

  const TypeScriptTag: ColorTag := ColorTag("TypeScript", "lucide:file-code", "text-blue-500")
  const TailwindTag: ColorTag := ColorTag("Tailwind CSS", "lucide:wind", "text-cyan-500")
  const JavaStack: seq<ColorTag> := [
    ColorTag("Java", "lucide:coffee", "text-red-500"),
    ColorTag("Spring Boot", "lucide:leaf", "text-green-500"),
    ColorTag("MySQL", "lucide:database", "text-blue-600")
  ]

  const ProjectImage: string := "/images/showcase/project1.svg"

  /** `showcaseConfig.items`. */
  const Items: seq<ShowcaseItem> := [
    ShowcaseItem(Some("project1"), "web", ProjectImage, Some("https://github.com/WaveAny/Nuxt Starter-Starter-Nuxt"),
      [ChromeWeb], Some("/images/showcase/qr-code-1.png"), None,
      [ColorTag("Vue.js", "lucide:code", "text-emerald-500"), TypeScriptTag, TailwindTag], true),
    ShowcaseItem(Some("project2"), "web", ProjectImage, Some("https://github.com/WaveAny/Nuxt Starter-Starter-Nextjs"),
      [ChromeWeb], Some("/images/showcase/qr-code-2.png"), None,
      [ColorTag("Next.js", "lucide:code", "text-emerald-500"), TypeScriptTag, TailwindTag], false),
    ShowcaseItem(Some("project3"), "mobile", ProjectImage, Some("https://hieu98.space/"),
      [Ios, ChromeWeb], Some("/images/qr-code-1.png"), None,
      [ColorTag("React", "lucide:code", "text-sky-500"),
       ColorTag("Node.js", "lucide:server", "text-green-500"),
       ColorTag("MongoDB", "lucide:database", "text-green-600")], false),
    ShowcaseItem(Some("project4"), "desktop", ProjectImage, Some("https://hieu98.space/"),
      [Ios, Android], Some("/images/qr-code-1.png"), None, JavaStack, false),
    ShowcaseItem(Some("project5"), "desktop", ProjectImage, Some("https://hieu98.space/"),
      [Ios], Some("/images/qr-code-1.png"), None, JavaStack, true),
    ShowcaseItem(Some("project6"), "desktop", ProjectImage, Some("https://hieu98.space/"),
      [Ios], Some("/images/qr-code-1.png"), None, JavaStack, true)
  ]

  /** `getShowcaseItems`. */
  function GetShowcaseItems(): (r: seq<ShowcaseItem>)
    ensures |r| == 6
  {
    Items
  }

  /** `getShowcaseItemByIndex`: the item at `index`, or None (`undefined`) outside the list. */
  function GetShowcaseItemByIndex(index: int): (r: Option<ShowcaseItem>)
    ensures r.Some? <==> 0 <= index < |GetShowcaseItems()|
    ensures r.Some? ==> r.value == GetShowcaseItems()[index]
  {
    if 0 <= index < |Items| then Some(Items[index]) else None
  }

  predicate PlatformValid(p: Platform) {
    p.name != "" && p.icon != ""
  }

  predicate TagValid(t: ColorTag) {
    t.name != "" && t.icon != "" && t.color != ""
  }

  /**
   * `validateShowcaseItem`: it holds exactly when type and image are set and
   * every platform and tag is complete.
   */
  function ValidateShowcaseItem(item: ShowcaseItem): (r: bool)
    ensures r <==>
      && item.kind != "" && item.image != ""
      && (forall i :: 0 <= i < |item.platforms| ==> item.platforms[i].name != "" && item.platforms[i].icon != "")
      && (forall i :: 0 <= i < |item.tags| ==>
            item.tags[i].name != "" && item.tags[i].icon != "" && item.tags[i].color != "")
  {
    EveryIff(item.platforms, PlatformValid);
    EveryIff(item.tags, TagValid);
    item.kind != "" && item.image != ""
    && Every(item.platforms, PlatformValid)
    && Every(item.tags, TagValid)
  }

  /** An item with a type and an image but no platforms and no tags is valid. */
  lemma BareItemValid(item: ShowcaseItem)
    requires item.kind != "" && item.image != "" && item.platforms == [] && item.tags == []
    ensures ValidateShowcaseItem(item)
  {
  }

  /** One tag without a color fails the item, whatever the other tags are. */
  lemma ColorlessTagFails(item: ShowcaseItem, k: nat)
    requires k < |item.tags| && item.tags[k].color == ""
    ensures !ValidateShowcaseItem(item)
  {
  }

  /** Every configured item passes the validator. */
  lemma ShippedItemsValid(i: nat)
    requires i < |Items|
    ensures ValidateShowcaseItem(GetShowcaseItems()[i])
  {
  }
}
