/** The search page: a case-insensitive filter of the built-in catalogue by
    the `query` URL parameter, the header that reports the result count, and
    an add-to-cart button that needs a signed-in user. */
module Search {
  import opened Browser
  import opened Text
  import opened Catalogue
  import opened Cart
  import Session

  /** The `query` URL parameter, or the empty string when it is missing or
      empty. */
  function QueryOf(param: Option<string>): string {
    if Truthy(param) then param.value else ""
  }

  /** The filter predicate: the lowercased query occurs in the lowercased
      name or the lowercased description. */
  predicate Matches(p: Product, query: string) {
    Contains(Lower(p.name), Lower(query)) || Contains(Lower(p.description), Lower(query))
  }

  /** The catalogue entries that match, in catalogue order. */
  function FilterProducts(ps: seq<Product>, query: string): seq<Product> {
    if ps == [] then []
    else (if Matches(ps[0], query) then [ps[0]] else []) + FilterProducts(ps[1..], query)
  }

  /** `r` is `s` with some entries dropped and the rest in their order. */
  ghost predicate IsSubsequence(r: seq<Product>, s: seq<Product>)
    decreases |s|
  {
    if r == [] then true
    else if s == [] then false
    else (r[0] == s[0] && IsSubsequence(r[1..], s[1..])) || IsSubsequence(r, s[1..])
  }

  /** The result is exactly the products that match. */
  lemma {:induction false} FilterExact(ps: seq<Product>, query: string)
    ensures forall p :: p in FilterProducts(ps, query) <==> p in ps && Matches(p, query)
  {
    if ps != [] {
      FilterExact(ps[1..], query);
      assert ps == [ps[0]] + ps[1..];
    }
  }

  /** The result keeps the catalogue's order. */
  lemma {:induction false} FilterSubsequence(ps: seq<Product>, query: string)
    ensures IsSubsequence(FilterProducts(ps, query), ps)
  {
    if ps != [] {
      FilterSubsequence(ps[1..], query);
      var rest := FilterProducts(ps[1..], query);
      if Matches(ps[0], query) {
        assert FilterProducts(ps, query) == [ps[0]] + rest;
        assert ([ps[0]] + rest)[1..] == rest;
      } else {
        assert FilterProducts(ps, query) == rest;
      }
    }
  }

  /** An empty query keeps every product. */
  lemma {:induction false} EmptyQueryKeepsAll(ps: seq<Product>)
    ensures FilterProducts(ps, "") == ps
  {
    if ps != [] {
      assert OccursAt(Lower(ps[0].name), Lower(""), 0);
      EmptyQueryKeepsAll(ps[1..]);
    }
  }

  /** Queries that lowercase alike select the same products. */
  lemma {:induction false} SameLowercaseSameResult(ps: seq<Product>, q1: string, q2: string)
    requires Lower(q1) == Lower(q2)
    ensures FilterProducts(ps, q1) == FilterProducts(ps, q2)
  {
    if ps != [] {
      SameLowercaseSameResult(ps[1..], q1, q2);
    }
  }

  /** Changing only the letter case of the query does not change the result. */
  lemma CaseInsensitive(ps: seq<Product>, query: string)
    ensures FilterProducts(ps, Upper(query)) == FilterProducts(ps, query)
    ensures FilterProducts(ps, Lower(query)) == FilterProducts(ps, query)
  {
    LowerOfUpper(query);
    assert Lower(Lower(query)) == Lower(query);
    SameLowercaseSameResult(ps, Upper(query), query);
    SameLowercaseSameResult(ps, Lower(query), query);
  }

  /** Searching for a product's name always finds it. */
  lemma NameFindsProduct(i: nat)
    requires i < 18
    ensures Products()[i] in FilterProducts(Products(), Products()[i].name)
  {
    var p := Products()[i];
    assert OccursAt(Lower(p.name), Lower(p.name), 0);
    FilterExact(Products(), p.name);
  }

  /** The line under the page title. */
  function ResultHeader(count: nat, query: string): (r: string)
    ensures count == 0 <==> "No results found" <= r
    ensures count > 0 ==> "Found " + Digits(count) + " product" <= r
    ensures count > 0 ==> ("Found " + Digits(count) + " products" <= r <==> count != 1)
  {
    var quoted := " for \"" + query + "\"";
    if count == 0 then
      "No results found" + quoted
    else
      var head := "Found " + Digits(count) + " product";
      var r := head + (if count != 1 then "s" else "") + quoted;
      assert r[..|head|] == head;
      assert r[0] == 'F';
      assert count == 1 ==> r[|head|] == ' ';
      r
  }

  /** `handleAddToCart`: without a signed-in user nothing changes (the page
      shows an alert and navigates to registration); otherwise the product's
      index, name, price and image go to the cart. */
  method HandleAddToCart(user: Option<Session.User>, cart: CartStore, product: Product)
    modifies cart, cart.storage
    ensures user.None? ==> cart.items == old(cart.items) && cart.storage.entries == old(cart.storage.entries)
    ensures user.Some? ==>
            && cart.items == AddLine(old(cart.items), NewItem(product.index, product.name, product.price, product.image))
            && cart.storage.entries == old(cart.storage.entries)[CartKey := cart.codec.encode(cart.items)]
  {
    if user.None? {
      return;
    }
    cart.AddToCart(NewItem(product.index, product.name, product.price, product.image));
  }
}
