/**
 * Country detection for the price search (utils/searchUtils.ts): the first
 * producing country, in the fixed list's order, whose name occurs in a text.
 *
 * JavaScript compares UTF-16 code units; every listed name is in the Basic
 * Multilingual Plane, where that is the same as comparing characters.
 */
module SearchUtils {
  import opened Types

  /** COFFEE_COUNTRIES, in its declared order. */
  const CoffeeCountries: seq<string> := [
    "コロンビア", "エチオピア", "ブラジル", "グアテマラ", "インドネシア", "タンザニア",
    "ケニア", "コスタリカ", "パナマ", "エルサルバドル", "ホンジュラス", "ペルー",
    "ルワンダ", "ブルンジ", "ボリビア", "メキシコ", "ベトナム", "インド",
    "パプアニューギニア", "イエメン", "ハワイ", "ジャマイカ", "中国", "ミャンマー",
    "タイ", "ラオス"
  ]

  /** `part` occurs in `text` starting at position i. */
  predicate OccursAt(text: string, part: string, i: int) {
    0 <= i && i + |part| <= |text| && text[i..i + |part|] == part
  }

  /** `text.includes(part)`, scanning the start positions from the left. */
  function Includes(text: string, part: string): (b: bool)
    ensures b <==> exists i :: OccursAt(text, part, i)
    decreases |text|
  {
    if |part| > |text| then
      assert forall i :: !OccursAt(text, part, i);
      false
    else if text[..|part|] == part then
      assert OccursAt(text, part, 0);
      true
    else
      var rest := Includes(text[1..], part);
      assert !OccursAt(text, part, 0);
      OccursShift(text, part);
      rest
  }

  /** Past the first position, the occurrences in a text are those in its tail, one position later. */
  lemma OccursShift(text: string, part: string)
    requires text != [] && !OccursAt(text, part, 0)
    ensures (exists i :: OccursAt(text, part, i)) <==> (exists i :: OccursAt(text[1..], part, i))
  {
    if exists i :: OccursAt(text, part, i) {
      var i :| OccursAt(text, part, i);
      assert text[1..][i - 1..i - 1 + |part|] == text[i..i + |part|];
      assert OccursAt(text[1..], part, i - 1);
    }
    if exists i :: OccursAt(text[1..], part, i) {
      var i :| OccursAt(text[1..], part, i);
      assert text[1..][i..i + |part|] == text[i + 1..i + 1 + |part|];
      assert OccursAt(text, part, i + 1);
    }
  }

  /** `countries.find(c => text.includes(c))`. */
  function FirstIncluded(countries: seq<string>, text: string): (r: Option<string>)
    ensures r.None? <==> forall k :: 0 <= k < |countries| ==> !Includes(text, countries[k])
    ensures r.Some? ==> exists k :: 0 <= k < |countries| && countries[k] == r.value && Includes(text, r.value) &&
                                    forall j :: 0 <= j < k ==> !Includes(text, countries[j])
  {
    if countries == [] then None
    else if Includes(text, countries[0]) then Some(countries[0])
    else
      assert forall k :: 1 <= k < |countries| ==> countries[k] == countries[1..][k - 1];
      FirstIncluded(countries[1..], text)
  }

  /** detectCountry: no text, no country; otherwise the earliest listed country the text mentions. */
  function DetectCountry(text: string): (r: Option<string>)
    ensures text == "" ==> r.None?
    ensures text != "" ==> (r.None? <==> forall k :: 0 <= k < |CoffeeCountries| ==> !Includes(text, CoffeeCountries[k]))
    ensures r.Some? ==> r.value in CoffeeCountries && Includes(text, r.value)
    ensures r.Some? ==> exists k :: 0 <= k < |CoffeeCountries| && CoffeeCountries[k] == r.value &&
                                    forall j :: 0 <= j < k ==> !Includes(text, CoffeeCountries[j])
  {
    if text == "" then None else FirstIncluded(CoffeeCountries, text)
  }

  /**
   * List order wins over text order: in "ブラジルとコロンビア" Brazil comes first in
   * the text, but Colombia heads the list, so Colombia is detected.
   */
  lemma ListOrderWins()
    ensures Includes("ブラジルとコロンビア", "ブラジル")
    ensures DetectCountry("ブラジルとコロンビア") == Some("コロンビア")
  {
    var text := "ブラジルとコロンビア";
    assert OccursAt(text, "ブラジル", 0);
    assert OccursAt(text, "コロンビア", 5);
  }

  /** A character of `part` that the text lacks rules the part out. */
  lemma MissingCharacter(text: string, part: string, k: int)
    requires 0 <= k < |part| && part[k] !in text
    ensures !Includes(text, part)
  {
    forall i | 0 <= i && i + |part| <= |text|
      ensures !OccursAt(text, part, i)
    {
      assert text[i..i + |part|][k] == text[i + k];
    }
  }

  /** A longer name listed earlier shadows a shorter one inside it: "インドネシア" is Indonesia, not India. */
  lemma EarlierLongerNameWins()
    ensures Includes("インドネシア", "インド")
    ensures DetectCountry("インドネシア") == Some("インドネシア")
  {
    var text := "インドネシア";
    assert OccursAt(text, "インド", 0);
    assert CoffeeCountries[4] == text && OccursAt(text, CoffeeCountries[4], 0);
    EarlierNamesAbsent(text);
    FirstIncludedAt(CoffeeCountries, text, 4);
  }

  /** The search returns the country at k when k is the first listed one the text includes. */
  lemma {:induction false} FirstIncludedAt(countries: seq<string>, text: string, k: int)
    requires 0 <= k < |countries| && Includes(text, countries[k])
    requires forall j :: 0 <= j < k ==> !Includes(text, countries[j])
    ensures FirstIncluded(countries, text) == Some(countries[k])
  {
    if k > 0 {
      FirstIncludedAt(countries[1..], text, k - 1);
    }
  }

  lemma EarlierNamesAbsent(text: string)
    requires text == "インドネシア"
    ensures forall j :: 0 <= j < 4 ==> !Includes(text, CoffeeCountries[j])
  {
    assert CoffeeCountries[..4] == ["コロンビア", "エチオピア", "ブラジル", "グアテマラ"];
    forall j | 0 <= j < 4
      ensures !Includes(text, CoffeeCountries[j])
    {
      var name := CoffeeCountries[..4][j];
      assert name[0] in "コエブグ" && name[0] !in text;
      MissingCharacter(text, name, 0);
    }
  }
}
