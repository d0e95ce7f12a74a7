/**
 * The product pop-up (src/components/ui/ProductDetailModal.tsx): a quantity selector that never goes
 * below 1, and a description and a table of details picked by keywords in the product's name.
 */
module ProductDetailModal {
  import opened Wrappers
  import opened Text
  import opened Catalogue
  import opened Events

  /** Which of the fixed description texts is shown. */
  datatype DescriptionKind = SoupText | OnionText | PeasText | CabbageText | SnackText | FanText | PremiumText | DefaultText

  /** `product.name.toLowerCase().includes(word)`. */
  predicate Mentions(name: string, word: string) {
    Contains(Lower(name), word)
  }

  /** getProductDescription: the first keyword found in the name decides. */
  function Description(name: string): DescriptionKind {
    if Mentions(name, "soup") then SoupText
    else if Mentions(name, "onion") then OnionText
    else if Mentions(name, "peas") then PeasText
    else if Mentions(name, "cabbage") then CabbageText
    else if Mentions(name, "spicy") || Mentions(name, "sticks") then SnackText
    else if Mentions(name, "fan") then FanText
    else if Mentions(name, "liquor") || Mentions(name, "achari") then PremiumText
    else DefaultText
  }

  /** The detail rows, in display order. */
  type Details = seq<(string, string)>

  /** getProductDetails: a different keyword order from the description (fan comes before the
      snacks, and "current" counts here only). */
  function ProductDetailRows(name: string, weight: string): Details {
    if Mentions(name, "soup") then
      [("Net weight", "80gm"), ("Calories", "400 cal/100gm"), ("Fats", "20gm"), ("Brand", "Asian Trail Foods")]
    else if Mentions(name, "onion") then
      [("Net weight", weight), ("Calories", "40 KCal/100gm"), ("Fats", "0.1gm"), ("Brand", "Fresh Farms")]
    else if Mentions(name, "peas") then
      [("Net weight", weight), ("Calories", "81 KCal/100gm"), ("Fats", "0.4gm"), ("Brand", "Village Fresh")]
    else if Mentions(name, "cabbage") then
      [("Net weight", weight), ("Calories", "25 KCal/100gm"), ("Fats", "0.1gm"), ("Brand", "Village Fresh")]
    else if Mentions(name, "fan") then
      [("Power", "25W"), ("Speed", "3 Levels"), ("Warranty", "1 Year"), ("Brand", "CoolBreeze")]
    else if Mentions(name, "spicy") || Mentions(name, "current") then
      [("Net weight", weight), ("Calories", "520 KCal/100gm"), ("Fats", "28gm"), ("Brand", "Current Snacks")]
    else
      [("Net weight", weight), ("Brand", "Premium Brand")]
  }

  /** A keyword rule: any of the words selects the result. */
  datatype Rule<T> = Rule(words: seq<string>, result: T)

  /** An independent reading of an if-chain: the first rule with a word in the name wins. */
  function FirstMatch<T>(name: string, rules: seq<Rule<T>>, otherwise: T): T {
    if rules == [] then otherwise
    else if exists w :: w in rules[0].words && Mentions(name, w) then rules[0].result
    else FirstMatch(name, rules[1..], otherwise)
  }

  lemma OneWordRule<T>(name: string, w: string, r: T, rest: seq<Rule<T>>, otherwise: T)
    ensures FirstMatch(name, [Rule([w], r)] + rest, otherwise) ==
      if Mentions(name, w) then r else FirstMatch(name, rest, otherwise)
  {
    assert ([Rule([w], r)] + rest)[1..] == rest;
  }

  lemma TwoWordRule<T>(name: string, w1: string, w2: string, r: T, rest: seq<Rule<T>>, otherwise: T)
    ensures FirstMatch(name, [Rule([w1, w2], r)] + rest, otherwise) ==
      if Mentions(name, w1) || Mentions(name, w2) then r else FirstMatch(name, rest, otherwise)
  {
    assert ([Rule([w1, w2], r)] + rest)[1..] == rest;
  }

  const DescriptionRules: seq<Rule<DescriptionKind>> := [
    Rule(["soup"], SoupText), Rule(["onion"], OnionText), Rule(["peas"], PeasText),
    Rule(["cabbage"], CabbageText), Rule(["spicy", "sticks"], SnackText), Rule(["fan"], FanText),
    Rule(["liquor", "achari"], PremiumText)]

  /** The description is the first rule, in the order soup, onion, peas, cabbage, spicy or sticks,
      fan, liquor or achari, that has a word in the lower-cased name; otherwise the default text. */
  lemma DescriptionIsFirstMatch(name: string)
    ensures Description(name) == FirstMatch(name, DescriptionRules, DefaultText)
  {
    var r7: seq<Rule<DescriptionKind>> := [];
    var r6 := [Rule(["liquor", "achari"], PremiumText)] + r7;
    var r5 := [Rule(["fan"], FanText)] + r6;
    var r4 := [Rule(["spicy", "sticks"], SnackText)] + r5;
    var r3 := [Rule(["cabbage"], CabbageText)] + r4;
    var r2 := [Rule(["peas"], PeasText)] + r3;
    var r1 := [Rule(["onion"], OnionText)] + r2;
    var r0 := [Rule(["soup"], SoupText)] + r1;
    assert r0 == DescriptionRules;
    TwoWordRule(name, "liquor", "achari", PremiumText, r7, DefaultText);
    OneWordRule(name, "fan", FanText, r6, DefaultText);
    TwoWordRule(name, "spicy", "sticks", SnackText, r5, DefaultText);
    OneWordRule(name, "cabbage", CabbageText, r4, DefaultText);
    OneWordRule(name, "peas", PeasText, r3, DefaultText);
    OneWordRule(name, "onion", OnionText, r2, DefaultText);
    OneWordRule(name, "soup", SoupText, r1, DefaultText);
  }

  /** "soup" in any case anywhere in the name decides both the description and the details, whatever
      other keywords the name holds, because it comes first in both chains. */
  lemma SoupAlwaysWins(front: string, w: string, back: string, weight: string)
    requires Lower(w) == "soup"
    ensures Description(front + w + back) == SoupText
    ensures ProductDetailRows(front + w + back, weight) ==
      [("Net weight", "80gm"), ("Calories", "400 cal/100gm"), ("Fats", "20gm"), ("Brand", "Asian Trail Foods")]
  {
    var name := front + w + back;
    var low := Lower(name);
    var k := |front|;
    forall i | 0 <= i < 4 ensures low[k + i] == "soup"[i] {
      assert name[k + i] == w[i];
      assert Lower(w)[i] == LowerChar(w[i]);
    }
    assert low[k..k + 4] == "soup";
    ContainsAt(low, "soup", k);
  }

  /** The detail rules: soup, onion, peas, cabbage, fan, then spicy or current. */
  function DetailRules(weight: string): seq<Rule<Details>> {
    [Rule(["soup"], [("Net weight", "80gm"), ("Calories", "400 cal/100gm"), ("Fats", "20gm"), ("Brand", "Asian Trail Foods")]),
     Rule(["onion"], [("Net weight", weight), ("Calories", "40 KCal/100gm"), ("Fats", "0.1gm"), ("Brand", "Fresh Farms")]),
     Rule(["peas"], [("Net weight", weight), ("Calories", "81 KCal/100gm"), ("Fats", "0.4gm"), ("Brand", "Village Fresh")]),
     Rule(["cabbage"], [("Net weight", weight), ("Calories", "25 KCal/100gm"), ("Fats", "0.1gm"), ("Brand", "Village Fresh")]),
     Rule(["fan"], [("Power", "25W"), ("Speed", "3 Levels"), ("Warranty", "1 Year"), ("Brand", "CoolBreeze")]),
     Rule(["spicy", "current"], [("Net weight", weight), ("Calories", "520 KCal/100gm"), ("Fats", "28gm"), ("Brand", "Current Snacks")])]
  }

  /** The details are those of the first detail rule with a word in the lower-cased name, otherwise
      the net weight and the brand. */
  lemma DetailsAreFirstMatch(name: string, weight: string)
    ensures ProductDetailRows(name, weight) ==
      FirstMatch(name, DetailRules(weight), [("Net weight", weight), ("Brand", "Premium Brand")])
  {
    var rs := DetailRules(weight);
    var otherwise := [("Net weight", weight), ("Brand", "Premium Brand")];
    var r6: seq<Rule<Details>> := [];
    var r5 := [rs[5]] + r6;
    var r4 := [rs[4]] + r5;
    var r3 := [rs[3]] + r4;
    var r2 := [rs[2]] + r3;
    var r1 := [rs[1]] + r2;
    var r0 := [rs[0]] + r1;
    assert r0 == rs;
    TwoWordRule(name, "spicy", "current", rs[5].result, r6, otherwise);
    OneWordRule(name, "fan", rs[4].result, r5, otherwise);
    OneWordRule(name, "cabbage", rs[3].result, r4, otherwise);
    OneWordRule(name, "peas", rs[2].result, r3, otherwise);
    OneWordRule(name, "onion", rs[1].result, r2, otherwise);
    OneWordRule(name, "soup", rs[0].result, r1, otherwise);
  }

  /** A name with both "spicy" and "fan" (and none of the earlier keywords) gets the snack
      description but the fan's details. */
  lemma SpicyFanDisagree(name: string, weight: string)
    requires Mentions(name, "spicy") && Mentions(name, "fan")
    requires !Mentions(name, "soup") && !Mentions(name, "onion") && !Mentions(name, "peas") && !Mentions(name, "cabbage")
    ensures Description(name) == SnackText
    ensures ProductDetailRows(name, weight)[0] == ("Power", "25W")
  {
  }

  /** "current" picks the snack details but not the snack description. */
  lemma CurrentOnlyInDetails(name: string, weight: string)
    requires Mentions(name, "current")
    requires !Mentions(name, "soup") && !Mentions(name, "onion") && !Mentions(name, "peas") && !Mentions(name, "cabbage")
    requires !Mentions(name, "spicy") && !Mentions(name, "sticks") && !Mentions(name, "fan")
    requires !Mentions(name, "liquor") && !Mentions(name, "achari")
    ensures Description(name) == DefaultText
    ensures ProductDetailRows(name, weight)[3] == ("Brand", "Current Snacks")
  {
  }

  /** Without any keyword the details are exactly the net weight and the brand. */
  lemma DefaultDetails(name: string, weight: string)
    requires !Mentions(name, "soup") && !Mentions(name, "onion") && !Mentions(name, "peas") && !Mentions(name, "cabbage")
    requires !Mentions(name, "fan") && !Mentions(name, "spicy") && !Mentions(name, "current")
    ensures ProductDetailRows(name, weight) == [("Net weight", weight), ("Brand", "Premium Brand")]
  {
  }

  /** The quantity selector. */
  class QuantitySelector {
    var quantity: int

    predicate Valid()
      reads this
    {
      quantity >= 1
    }

    constructor ()
      ensures quantity == 1 && Valid()
    {
      quantity := 1;
    }

    method IncrementQuantity()
      modifies this
      ensures quantity == old(quantity) + 1
      ensures old(Valid()) ==> Valid()
    {
      quantity := quantity + 1;
    }

    /** `Math.max(1, prev - 1)`: one less, but never below 1. */
    method DecrementQuantity()
      modifies this
      ensures quantity == (if old(quantity) - 1 > 1 then old(quantity) - 1 else 1)
      ensures Valid()
      ensures old(quantity) > 1 ==> quantity == old(quantity) - 1
    {
      if quantity - 1 > 1 {
        quantity := quantity - 1;
      } else {
        quantity := 1;
      }
    }

    /** handleAddToCart: hand the product and the chosen quantity over, reset to 1, close. */
    method HandleAddToCart(product: Product) returns (effects: seq<Effect>)
      modifies this
      ensures effects == [AddWithQuantity(product, old(quantity)), Close]
      ensures quantity == 1 && Valid()
    {
      effects := [AddWithQuantity(product, quantity), Close];
      quantity := 1;
    }
  }
}
