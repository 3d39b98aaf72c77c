/**
 * The supported locales and the default one (i18n/config.ts). Only the
 * locale list and the default code affect behaviour; the rest of the i18n
 * options are framework wiring.
 */
module LocaleRegistry {
  import opened Wrappers

  datatype Direction = Ltr | Rtl

  datatype Locale = Locale(code: string, iso: string, name: Option<string>, dir: Direction, file: string)

  /** The registry, in display order. */
  const Locales: seq<Locale> := [
    Locale("en", "en-US", Some("English"), Ltr, "en/index.ts"),
    Locale("vi", "vi-VN", Some("Vietnamese"), Ltr, "vi/index.ts")
  ]

  /** The locale whose paths carry no prefix. */
  const DefaultLocale: string := "en"

  /** `LOCALES.some(l => l.code === code)`: exact, case-sensitive membership. */
  predicate IsRegistered(code: string)
  {
    exists i :: 0 <= i < |Locales| && Locales[i].code == code
  }

  /** Sequence positions of the locales' codes, in registry order. */
  function Codes(ls: seq<Locale>): (r: seq<string>)
    ensures |r| == |ls|
    ensures forall i :: 0 <= i < |ls| ==> r[i] == ls[i].code
  {
    if ls == [] then [] else [ls[0].code] + Codes(ls[1..])
  }

  /**
   * `new Map(ls.map(l => [l.code, l]))`: entries are inserted left to right,
   * so a later locale with the same code replaces an earlier one.
   */
  function CodeMap(ls: seq<Locale>): (m: map<string, Locale>)
    ensures m.Keys == set i | 0 <= i < |ls| :: ls[i].code
    ensures forall c :: c in m ==> m[c].code == c && exists i :: 0 <= i < |ls| && ls[i] == m[c]
    decreases |ls|
  {
    if ls == [] then map[]
    else
      var init := ls[..|ls| - 1];
      var last := ls[|ls| - 1];
      assert forall i :: 0 <= i < |init| ==> init[i] == ls[i];
      CodeMap(init)[last.code := last]
  }

  /**
   * The `localesMap` of the locale composable: the map the switcher
   * validates against has exactly the registered codes as keys, each mapped
   * to its own registry entry.
   */
  function LocalesMap(): (m: map<string, Locale>)
    ensures forall code :: code in m <==> IsRegistered(code)
    ensures forall code :: code in m ==> m[code].code == code && m[code] in Locales
  {
    CodeMap(Locales)
  }

  /** The registered codes are exactly `en` and `vi`, in that order, and the default is among them. */
  lemma RegistryContents()
    ensures Codes(Locales) == ["en", "vi"]
    ensures IsRegistered(DefaultLocale)
    ensures forall c :: IsRegistered(c) <==> c == "en" || c == "vi"
  {
    assert Locales[0].code == "en";
  }

  /**
   * Every registered code is non-empty and free of `/`, so a path prefixed
   * with `/code` has that code as its first segment.
   */
  lemma RegisteredCodeShape(code: string)
    requires IsRegistered(code)
    ensures code != "" && '/' !in code
  {
    RegistryContents();
  }
}
