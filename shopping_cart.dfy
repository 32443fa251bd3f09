/** The shopping-cart context: one `cart` state cell holding ingredient
    names, replaced by `addToCart` and `clearCart`, and the hook that reads
    the context from inside a provider. */
module ShoppingCartContext {
  import opened Remote

  /** The cart after `addToCart(items)`: the state updater spreads the
      previous cart and then the items, so every item lands after the old
      contents, in order, duplicates kept. */
  function Appended(prevCart: seq<string>, items: seq<string>): (r: seq<string>)
    ensures |r| == |prevCart| + |items|
    ensures r[..|prevCart|] == prevCart && r[|prevCart|..] == items
  {
    prevCart + items
  }

  /** Two successive adds compose into one add of both batches, because each
      updater starts from the cart the previous one left. */
  lemma AppendedComposes(cart: seq<string>, a: seq<string>, b: seq<string>)
    ensures Appended(Appended(cart, a), b) == Appended(cart, a + b)
  {
    var r := Appended(Appended(cart, a), b);
    assert r[..|cart|] == r[..|cart| + |a|][..|cart|];
  }

  /** Adding an empty batch leaves the cart as it was. */
  lemma AppendedNothing(cart: seq<string>)
    ensures Appended(cart, []) == cart
  {
  }

  /** Nothing is de-duplicated: every occurrence of a name in the old cart and
      in the batch is still counted. */
  lemma AppendedKeepsDuplicates(cart: seq<string>, items: seq<string>)
    ensures multiset(Appended(cart, items)) == multiset(cart) + multiset(items)
  {
    var r := Appended(cart, items);
    assert r == r[..|cart|] + r[|cart|..];
  }

  /** The provider's state. */
  class ShoppingCartProvider {
    var cart: seq<string>

    /** The cart starts empty. */
    constructor ()
      ensures cart == []
    {
      cart := [];
    }

    method AddToCart(items: seq<string>)
      modifies this
      ensures cart == Appended(old(cart), items)
    {
      cart := Appended(cart, items);
    }

    /** Empties the cart whatever it held; clearing twice equals clearing once. */
    method ClearCart()
      modifies this
      ensures cart == []
    {
      cart := [];
    }
  }

  const MissingProvider := "useShoppingCart must be used within a ShoppingCartProvider"

  /** `useShoppingCart()`: the nearest provider, or the error thrown when the
      caller is not rendered inside one (never an empty cart). */
  function UseShoppingCart(context: Option<ShoppingCartProvider>): (r: Result<ShoppingCartProvider, string>)
    ensures r.Err? <==> context.None?
    ensures r.Err? ==> r.error == MissingProvider
    ensures r.Ok? ==> r.value == context.value
  {
    match context
    case None => Err(MissingProvider)
    case Some(p) => Ok(p)
  }
}
