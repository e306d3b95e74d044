/** The static price list and the integer arithmetic of quotes, purchase
    bonuses and referral commissions. Money is counted in kopecks. */
module Catalog {
  import opened PyText

  /** A promo discount in whole percent; the registry holds fractions in [0, 1). */
  type Percent = p: int | 0 <= p < 100

  /** The callback tokens of the six package buttons. */
  const PackageTokens: seq<string> := ["60uc", "325uc", "660uc", "1800uc", "3850uc", "8100uc"]

  /** `PRICES` (what `load_prices` returns), in kopecks: "90.06 ₽" is 9006. */
  const Prices: map<string, nat> :=
    map["60" := 9006, "325" := 45031, "660" := 90061,
        "1800" := 225153, "3850" := 450305, "8100" := 900610]

  /** The package named by a token: `token.replace("uc", "")`. */
  function PackageOf(token: string): (pkg: string)
    ensures |pkg| <= |token|
    ensures |token| >= 2 && token[|token| - 2..] == "uc" && AllDigits(token[..|token| - 2]) ==>
      pkg == token[..|token| - 2]
  {
    var pkg := RemoveAll(token, "uc");
    assert |token| >= 2 && token[|token| - 2..] == "uc" && AllDigits(token[..|token| - 2]) ==>
      pkg == token[..|token| - 2] by {
      if |token| >= 2 && token[|token| - 2..] == "uc" && AllDigits(token[..|token| - 2]) {
        var d := token[..|token| - 2];
        assert token == d + "uc";
        assert 'u' !in d;
        RemoveAllConcat(d, "uc", "uc");
        RemoveAllLeading("uc", "");
        assert "uc" + "" == "uc";
      }
    }
    pkg
  }

  /** Every package button names a priced package, and the token is that package followed by "uc". */
  lemma PackageTokensPriced(token: string)
    requires token in PackageTokens
    ensures PackageOf(token) in Prices
    ensures PackageOf(token) + "uc" == token
  {
    var d := token[..|token| - 2];
    assert token == d + "uc";
    assert d in Prices by {
      if token == "60uc" { assert d == "60"; }
      else if token == "325uc" { assert d == "325"; }
      else if token == "660uc" { assert d == "660"; }
      else if token == "1800uc" { assert d == "1800"; }
      else if token == "3850uc" { assert d == "3850"; }
      else { assert d == "8100"; }
    }
  }

  /** The package of a button, known to be priced. */
  function TokenPackage(token: string): (pkg: string)
    requires token in PackageTokens
    ensures pkg in Prices && pkg == PackageOf(token)
  {
    PackageTokensPriced(token);
    PackageOf(token)
  }

  /** The quoted price: the list price itself without a discount, otherwise
      `price * (1 - discount)` rounded to whole kopecks. */
  function Quote(list: nat, discount: Percent): (q: nat)
    ensures q <= list
    ensures discount == 0 ==> q == list
    ensures q * 100 - 50 <= list * (100 - discount) < q * 100 + 50
  {
    if discount == 0 then list
    else
      var exact := list * (100 - discount);
      assert exact <= list * 100 - list;
      (exact + 50) / 100
  }

  /** The purchase bonus: one unit per full 1000 roubles, `int(price // 1000)`. */
  function PurchaseBonus(price: nat): (b: nat)
    ensures b * 100000 <= price < (b + 1) * 100000
  {
    price / 100000
  }

  /** The referral commission: `int(price * 0.05)`, five percent rounded down. */
  function Commission(list: nat): (c: nat)
    ensures c * 10000 <= list * 5 < (c + 1) * 10000
  {
    list * 5 / 10000
  }

  /** The worked figures: "900.61 ₽" earns no purchase bonus and quotes at
      "810.55 ₽" under SUMMER10; "2251.53 ₽" pays a commission of 112. */
  lemma CatalogFigures()
    ensures PurchaseBonus(Prices["660"]) == 0
    ensures Quote(Prices["660"], 10) == 81055
    ensures Commission(Prices["1800"]) == 112
    ensures PurchaseBonus(Prices["8100"]) == 9
  {
  }
}
