/** The language chip: normalises the current i18n language, shows it as an
    upper-case code and cycles en -> ko -> ja -> zh -> en on press. */
module LanguageSwitcher {
  import opened Wrappers
  import opened JsString
  import opened RelativeTime

  /** `ORDER`. */
  const Order: seq<Lang> := [En, Ko, Ja, Zh]

  /** `normalize(l)`: `(l || 'en').toLowerCase()` and the same prefix rule as
      the store's `normalizeLang`. */
  function Normalize(l: Option<string>): (r: Lang)
    ensures l.None? || l.value == "" ==> r == En
    ensures r == Ko <==> l.Some? && StartsWith(ToLower(l.value), "ko")
    ensures r == Ja <==> l.Some? && !StartsWith(ToLower(l.value), "ko") && StartsWith(ToLower(l.value), "ja")
  {
    var s := ToLower(if l.None? || l.value == "" then "en" else l.value);
    assert l.None? || l.value == "" ==> s[..2][0] == 'e';
    if StartsWith(s, "ko") then Ko
    else if StartsWith(s, "ja") then Ja
    else if StartsWith(s, "zh") then Zh
    else En
  }

  /** The switcher and the relative-time formatter read every language tag alike. */
  lemma NormalizeAgrees(l: Option<string>)
    ensures Normalize(l) == NormalizeLang(l)
  {
    if l.None? || l.value == "" {
      var en := ToLower("en");
      assert en == "en" && en[..2][0] == 'e';
      assert !StartsWith(en, "ko") && !StartsWith(en, "ja") && !StartsWith(en, "zh");
      assert !StartsWith(ToLower(""), "ko") && !StartsWith(ToLower(""), "ja") && !StartsWith(ToLower(""), "zh");
    }
  }

  /** The code of a language, as i18next names it. */
  function Code(l: Lang): string {
    match l
    case En => "en"
    case Ko => "ko"
    case Ja => "ja"
    case Zh => "zh"
  }

  /** Normalising a code gives that language back. */
  lemma NormalizeCode(l: Lang)
    ensures Normalize(Some(Code(l))) == l
  {
    assert StartsWith(ToLower(Code(l)), Code(l));
  }

  /** Normalisation is idempotent on its outputs. */
  lemma NormalizeIdempotent(l: Option<string>)
    ensures Normalize(Some(Code(Normalize(l)))) == Normalize(l)
  {
    NormalizeCode(Normalize(l));
  }

  /** `ORDER.indexOf(cur)`. */
  function IndexOf(l: Lang): (i: nat)
    ensures i < |Order| && Order[i] == l
  {
    match l
    case En => 0
    case Ko => 1
    case Ja => 2
    case Zh => 3
  }

  /** `ORDER[(idx + 1) % ORDER.length]`. */
  function Next(cur: Lang): (n: Lang)
    ensures n != cur
    ensures Order[(IndexOf(cur) + 1) % 4] == n
  {
    Order[(IndexOf(cur) + 1) % |Order|]
  }

  /** Pressing the chip: the language passed to `setAppLanguage`. */
  function OnCycle(language: Option<string>): (r: Lang)
    ensures r != Normalize(language)
    ensures IndexOf(r) == (IndexOf(Normalize(language)) + 1) % 4
  {
    Next(Normalize(language))
  }

  lemma CycleOrder()
    ensures Next(En) == Ko && Next(Ko) == Ja && Next(Ja) == Zh && Next(Zh) == En
  {
  }

  /** Four presses return to the starting language. */
  lemma FourCyclesReturn(l: Lang)
    ensures Next(Next(Next(Next(l)))) == l
  {
  }

  /** `cur.toUpperCase()`. */
  function Label(cur: Lang): (s: string)
    ensures |s| == |Code(cur)| == 2
    ensures forall i :: 0 <= i < 2 ==> 'A' <= s[i] <= 'Z' && s[i] as int == Code(cur)[i] as int - 32
    ensures forall i :: 0 <= i < 2 ==> ToLowerChar(s[i]) == Code(cur)[i]
  {
    match cur
    case En => "EN"
    case Ko => "KO"
    case Ja => "JA"
    case Zh => "ZH"
  }
}
