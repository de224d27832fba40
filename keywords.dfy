/**
 * The keyword classifier of `PersonalityManager.update_points`: the message is
 * lower-cased once, then each of six fixed keyword lists is tested by substring
 * containment (Python's `keyword in text`, wrapped in `any(...)`).
 */
module Keywords {

  /** The six keyword categories, one per rule of `update_points`. */
  datatype Category = Affection | Hostility | Gratitude | Humor | Detachment | Enthusiasm

  /** The order in which `update_points` tests the rules. */
  const Categories: seq<Category> :=
    [Affection, Hostility, Gratitude, Humor, Detachment, Enthusiasm]

  /** The fixed keyword list of each category. */
  const AffectionKeywords: seq<string> := ["大好き", "だいすき", "好き", "すき"]
  const HostilityKeywords: seq<string> := ["嫌い", "きらい", "むかつく", "うざい", "うるさい", "腹立つ", "馬鹿", "最悪"]
  const GratitudeKeywords: seq<string> := ["ありがとう", "感謝", "やさしい", "親切", "素敵", "助かる"]
  const HumorKeywords: seq<string> := ["面白い", "おもしろい", "笑", "ウケる", "ギャグ", "ダジャレ", "爆笑", "なんでやねん"]
  const DetachmentKeywords: seq<string> := ["別に", "ふーん", "そうなんだ", "まあ", "普通", "冷静", "落ち着いて", "どうでもいい"]
  const EnthusiasmKeywords: seq<string> := ["わーい", "たのしい", "すごーい", "やったー", "きゃー", "わくわく", "えへへ"]
  function KeywordsOf(c: Category): seq<string> {
    match c
    case Affection => AffectionKeywords
    case Hostility => HostilityKeywords
    case Gratitude => GratitudeKeywords
    case Humor => HumorKeywords
    case Detachment => DetachmentKeywords
    case Enthusiasm => EnthusiasmKeywords
  }

  /** `k` is found in `s` starting at index `i`. */
  predicate OccursAt(k: string, s: string, i: int) {
    0 <= i && i + |k| <= |s| && s[i..i + |k|] == k
  }

  /** Substring containment, `k in s`. */
  predicate Occurs(k: string, s: string) {
    exists i | 0 <= i <= |s| :: OccursAt(k, s, i)
  }

  /** `any(k in s for k in ks)`. */
  predicate AnyOccurs(ks: seq<string>, s: string) {
    exists k | k in ks :: Occurs(k, s)
  }

  /** Lower-casing of one character; only the ASCII letters are mapped. */
  function LowerChar(c: char): char {
    if 'A' <= c <= 'Z' then (c as int + 32) as char else c
  }

  /** `str.lower()`, restricted to the ASCII letters. */
  function Lower(s: string): (r: string)
    ensures |r| == |s|
    ensures forall i :: 0 <= i < |s| ==> r[i] == LowerChar(s[i])
  {
    seq(|s|, i requires 0 <= i < |s| => LowerChar(s[i]))
  }

  /** A character that no lower-casing maps to, or from, another character. */
  predicate CaseFree(c: char) {
    !('A' <= c <= 'Z') && !('a' <= c <= 'z')
  }

  /** `any(keyword in text for keyword in <c's keywords>)`: the test of one rule. */
  predicate Matches(c: Category, text: string) {
    AnyOccurs(KeywordsOf(c), text)
  }

  /** The categories of `cats` whose keyword list is found in `text`. */
  function HitsAmong(cats: seq<Category>, text: string): set<Category>
    decreases |cats|
  {
    if cats == [] then {}
    else (if Matches(cats[0], text) then {cats[0]} else {}) + HitsAmong(cats[1..], text)
  }

  /** A category is collected exactly when it is among `cats` and its keyword list is found. */
  lemma {:induction false} HitsAmongMembers(cats: seq<Category>, text: string)
    ensures forall c :: c in HitsAmong(cats, text) <==> c in cats && Matches(c, text)
    decreases |cats|
  {
    if cats != [] {
      HitsAmongMembers(cats[1..], text);
      forall c ensures c in cats <==> c == cats[0] || c in cats[1..] {
        if c in cats[1..] {
          var j :| 0 <= j < |cats[1..]| && cats[1..][j] == c;
          assert cats[j + 1] == c;
        }
      }
    }
  }

  /** The categories whose keyword list matches the lower-cased message. */
  function Classify(text: string): (hits: set<Category>)
    ensures forall c {:trigger Matches(c, Lower(text))} :: c in hits <==> Matches(c, Lower(text))
  {
    CategoriesComplete();
    HitsAmongMembers(Categories, Lower(text));
    HitsAmong(Categories, Lower(text))
  }

  /** Every category is one of the six rules. */
  lemma CategoriesComplete()
    ensures forall c :: c in Categories
  {
    forall c ensures c in Categories {
      match c
      case Affection => assert Categories[0] == c;
      case Hostility => assert Categories[1] == c;
      case Gratitude => assert Categories[2] == c;
      case Humor => assert Categories[3] == c;
      case Detachment => assert Categories[4] == c;
      case Enthusiasm => assert Categories[5] == c;
    }
  }

  /** Lower-casing never changes whether a keyword made of case-free characters is found. */
  lemma OccursIgnoresCase(k: string, s: string)
    requires forall j :: 0 <= j < |k| ==> CaseFree(k[j])
    ensures Occurs(k, Lower(s)) == Occurs(k, s)
  {
    var t := Lower(s);
    forall i ensures OccursAt(k, t, i) <==> OccursAt(k, s, i) {
      if OccursAt(k, s, i) {
        forall j | 0 <= j < |k| ensures t[i + j] == k[j] {
          assert s[i + j] == k[j];
        }
      }
      if OccursAt(k, t, i) {
        forall j | 0 <= j < |k| ensures s[i + j] == k[j] {
          assert LowerChar(s[i + j]) == k[j];
        }
      }
    }
  }

  /** Every keyword of every category is free of ASCII letters. */
  lemma KeywordsCaseFree(c: Category, k: string)
    requires k in KeywordsOf(c)
    ensures forall j :: 0 <= j < |k| ==> CaseFree(k[j])
  {
  }

  /**
   * The lower-casing in `update_points` is immaterial: the categories found in
   * the lower-cased message are exactly those found in the message itself.
   */
  lemma ClassifyIgnoresCase(text: string)
    ensures forall c :: c in Classify(text) <==> Matches(c, text)
  {
    forall c ensures Matches(c, Lower(text)) == Matches(c, text) {
      forall k | k in KeywordsOf(c) ensures Occurs(k, Lower(text)) == Occurs(k, text) {
        KeywordsCaseFree(c, k);
        OccursIgnoresCase(k, text);
      }
    }
  }
}
