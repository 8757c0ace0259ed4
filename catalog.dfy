/**
 * Pricing one order against the product catalog: the case-insensitive
 * drink-name match of `equalsIgnoreCase`, the `findAny` over the catalog
 * and the `prices.get(size)` lookup, which yields `null` for a missing size.
 */
module Catalog {
  import opened Wrappers
  import opened Models

  /** ASCII lower-casing of one character. */
  function LowerAscii(c: char): char
  {
    if 'A' <= c <= 'Z' then (c as int + 32) as char else c
  }

  /** `a.equalsIgnoreCase(b)`, restricted to ASCII case folding. */
  predicate EqualsIgnoreCase(a: string, b: string)
  {
    |a| == |b| && forall i :: 0 <= i < |a| ==> LowerAscii(a[i]) == LowerAscii(b[i])
  }

  /** Ignoring case is an equivalence: reflexive, symmetric and transitive. */
  lemma EqualsIgnoreCaseIsEquivalence(a: string, b: string, c: string)
    ensures EqualsIgnoreCase(a, a)
    ensures EqualsIgnoreCase(a, b) ==> EqualsIgnoreCase(b, a)
    ensures EqualsIgnoreCase(a, b) && EqualsIgnoreCase(b, c) ==> EqualsIgnoreCase(a, c)
  {
  }

  /** Two names differing only in the case of ASCII letters match. */
  lemma {:induction false} CaseVariantsMatch(a: string, b: string)
    requires |a| == |b|
    requires forall i :: 0 <= i < |a| ==> a[i] == b[i] || LowerAscii(a[i]) == b[i] || a[i] == LowerAscii(b[i])
    ensures EqualsIgnoreCase(a, b)
  {
    forall i | 0 <= i < |a|
      ensures LowerAscii(a[i]) == LowerAscii(b[i])
    {
      LowerAsciiIdempotent(a[i]);
      LowerAsciiIdempotent(b[i]);
    }
  }

  /** Folding an already folded character changes nothing. */
  lemma LowerAsciiIdempotent(c: char)
    ensures LowerAscii(LowerAscii(c)) == LowerAscii(c)
  {
  }

  /**
   * `products.stream().filter(p -> drink.equalsIgnoreCase(p.getDrinkName())).findAny()`,
   * resolved as the first match in catalog order.
   */
  function FindProduct(products: seq<Product>, drink: string): Option<Product>
  {
    if |products| == 0 then None
    else if EqualsIgnoreCase(drink, products[0].drinkName) then Some(products[0])
    else FindProduct(products[1..], drink)
  }

  /**
   * The lookup finds nothing exactly when no catalog name matches the drink
   * ignoring case; otherwise it finds the first product whose name matches.
   */
  lemma {:induction false} FindProductMeaning(products: seq<Product>, drink: string)
    ensures FindProduct(products, drink).None? <==> forall p :: p in products ==> !EqualsIgnoreCase(drink, p.drinkName)
    ensures FindProduct(products, drink).Some? ==> exists k :: (0 <= k < |products|
      && products[k] == FindProduct(products, drink).value
      && EqualsIgnoreCase(drink, products[k].drinkName)
      && forall j :: 0 <= j < k ==> !EqualsIgnoreCase(drink, products[j].drinkName))
  {
    if |products| > 0 && !EqualsIgnoreCase(drink, products[0].drinkName) {
      var rest := products[1..];
      FindProductMeaning(rest, drink);
      assert products == [products[0]] + rest;
      if FindProduct(rest, drink).Some? {
        var k :| 0 <= k < |rest| && rest[k] == FindProduct(rest, drink).value
          && EqualsIgnoreCase(drink, rest[k].drinkName)
          && forall j :: 0 <= j < k ==> !EqualsIgnoreCase(drink, rest[j].drinkName);
        assert products[k + 1] == rest[k];
      }
    }
  }

  /** `HashMap.get`: the value under `key`, or `null` when the key is absent. */
  function Get(m: map<string, real>, key: string): Option<real>
  {
    if key in m then Some(m[key]) else None
  }

  /** The three things pricing one order can yield. */
  datatype PriceLookup = UnknownDrink | MissingSize | Priced(price: real)

  /** The price of order `o`: the matched product's price for `o.size`, if any. */
  function LookupPrice(products: seq<Product>, o: Order): PriceLookup
  {
    match FindProduct(products, o.drink)
    case None => UnknownDrink
    case Some(p) =>
      match Get(p.prices, o.size)
      case None => MissingSize
      case Some(price) => Priced(price)
  }

  /**
   * An order's drink is unknown exactly when no catalog name matches it;
   * otherwise a matching product decides between a missing size and its price.
   */
  lemma LookupPriceMeaning(products: seq<Product>, o: Order)
    ensures LookupPrice(products, o).UnknownDrink? <==> forall p :: p in products ==> !EqualsIgnoreCase(o.drink, p.drinkName)
    ensures !LookupPrice(products, o).UnknownDrink? ==> exists p :: (p in products && EqualsIgnoreCase(o.drink, p.drinkName)
      && (LookupPrice(products, o).MissingSize? <==> o.size !in p.prices)
      && (LookupPrice(products, o).Priced? ==> LookupPrice(products, o).price == p.prices[o.size]))
  {
    FindProductMeaning(products, o.drink);
  }

  /** No two catalog entries have names that match ignoring case. */
  predicate UniqueDrinkNames(products: seq<Product>)
  {
    forall i, j :: 0 <= i < j < |products| ==> !EqualsIgnoreCase(products[i].drinkName, products[j].drinkName)
  }

  /**
   * With unique names, `findAny` has only one product to pick: every catalog
   * entry matching the order's drink determines the lookup.
   */
  lemma LookupPriceOfAnyMatch(products: seq<Product>, o: Order, k: nat)
    requires UniqueDrinkNames(products)
    requires k < |products| && EqualsIgnoreCase(o.drink, products[k].drinkName)
    ensures o.size in products[k].prices ==> LookupPrice(products, o) == Priced(products[k].prices[o.size])
    ensures o.size !in products[k].prices ==> LookupPrice(products, o) == MissingSize
  {
    FindProductMeaning(products, o.drink);
    var found := FindProduct(products, o.drink);
    var m :| 0 <= m < |products| && products[m] == found.value
      && EqualsIgnoreCase(o.drink, products[m].drinkName)
      && forall j :: 0 <= j < m ==> !EqualsIgnoreCase(o.drink, products[j].drinkName);
    var matched, wanted := products[m].drinkName, products[k].drinkName;
    if m != k {
      // Both names match the ordered drink, so they match each other.
      EqualsIgnoreCaseIsEquivalence(o.drink, matched, o.drink);
      EqualsIgnoreCaseIsEquivalence(o.drink, wanted, o.drink);
      EqualsIgnoreCaseIsEquivalence(matched, o.drink, wanted);
      EqualsIgnoreCaseIsEquivalence(wanted, o.drink, matched);
      assert false;
    }
  }

  /** The catalog lookup does not depend on the case of the ordered drink name. */
  lemma {:induction false} FindProductIgnoresCase(products: seq<Product>, d1: string, d2: string)
    requires EqualsIgnoreCase(d1, d2)
    ensures FindProduct(products, d1) == FindProduct(products, d2)
  {
    if |products| > 0 {
      var name := products[0].drinkName;
      EqualsIgnoreCaseIsEquivalence(d1, d2, name);
      EqualsIgnoreCaseIsEquivalence(d2, d1, name);
      FindProductIgnoresCase(products[1..], d1, d2);
    }
  }

  /** An order for "Latte" is priced from a catalog entry named "latte". */
  lemma LatteIsPricedFromLowerCaseEntry()
    ensures LookupPrice([Product("latte", map["small" := 2.5, "large" := 3.5])], Order("alice", "Latte", "large"))
      == Priced(3.5)
  {
    assert EqualsIgnoreCase("Latte", "latte") by {
      CaseVariantsMatch("Latte", "latte");
    }
  }
}
