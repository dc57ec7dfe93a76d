/** The product page (src/pages/ProductDetail.js): loading the product and
    its related products, the quantity stepper, and adding the chosen
    quantity to the cart. The cart provider and the API are not part of this
    model: `addToCart` and `navigate` are recorded as calls, and what the
    two requests return is an input of the loading step. */
module ProductDetail {
  import opened Wrappers

  /** The fields of a product record the page acts on. */
  datatype Product = Product(dbId: string, category: string, inStock: bool)

  /** `.filter(p => p._id !== id).slice(0, 4)`. */
  function Related(catalog: seq<Product>, id: string): seq<Product> {
    var others := Others(catalog, id);
    others[..if |others| < 4 then |others| else 4]
  }

  /** `.filter(p => p._id !== id)`. */
  function Others(catalog: seq<Product>, id: string): (r: seq<Product>) {
    if catalog == [] then []
    else if catalog[0].dbId != id then [catalog[0]] + Others(catalog[1..], id)
    else Others(catalog[1..], id)
  }

  /** `sub` keeps some elements of `s`, in their order. */
  predicate IsSubsequence<T(==)>(sub: seq<T>, s: seq<T>)
    decreases |s|
  {
    if sub == [] then true
    else if s == [] then false
    else if sub[0] == s[0] then IsSubsequence(sub[1..], s[1..])
    else IsSubsequence(sub, s[1..])
  }

  lemma {:induction false} PrefixOfSubsequence<T>(sub: seq<T>, s: seq<T>, n: nat)
    requires IsSubsequence(sub, s) && n <= |sub|
    ensures IsSubsequence(sub[..n], s)
    decreases |s|
  {
    if n > 0 && s != [] {
      if sub[0] == s[0] {
        PrefixOfSubsequence(sub[1..], s[1..], n - 1);
        assert sub[..n][1..] == sub[1..][..n - 1];
      } else {
        PrefixOfSubsequence(sub, s[1..], n);
      }
    }
  }

  /** The filter keeps, in order, exactly the catalog entries with another id. */
  lemma {:induction false} OthersSpec(catalog: seq<Product>, id: string)
    ensures IsSubsequence(Others(catalog, id), catalog)
    ensures forall p | p in Others(catalog, id) :: p.dbId != id
    ensures forall p | p in catalog && p.dbId != id :: p in Others(catalog, id)
  {
    if catalog != [] {
      OthersSpec(catalog[1..], id);
      var rest := Others(catalog[1..], id);
      if catalog[0].dbId != id {
        assert Others(catalog, id)[1..] == rest;
      }
      forall p | p in catalog && p.dbId != id ensures p in Others(catalog, id) {
        if p != catalog[0] {
          assert p in catalog[1..];
        }
      }
    }
  }

  /** At most four related products, none with the page's id, taken in
      catalog order; fewer than four only when the catalog has no more. */
  lemma RelatedSpec(catalog: seq<Product>, id: string)
    ensures |Related(catalog, id)| <= 4
    ensures forall p | p in Related(catalog, id) :: p.dbId != id
    ensures IsSubsequence(Related(catalog, id), catalog)
    ensures |Related(catalog, id)| < 4 ==>
      forall p | p in catalog && p.dbId != id :: p in Related(catalog, id)
    ensures Related(catalog, id) == Others(catalog, id)[..|Related(catalog, id)|]
    ensures |Related(catalog, id)| == if |Others(catalog, id)| < 4 then |Others(catalog, id)| else 4
  {
    var others := Others(catalog, id);
    OthersSpec(catalog, id);
    var n := if |others| < 4 then |others| else 4;
    PrefixOfSubsequence(others, catalog, n);
    if |others| < 4 {
      assert Related(catalog, id) == others;
    }
  }

  datatype Call = AddToCart(product: Product) | Navigate(path: string)

  const CartPath := "/cart"
  const ProductsPath := "/products"

  /** `n` copies of `c`. */
  function Repeat(c: Call, n: nat): (r: seq<Call>)
    ensures |r| == n
    ensures forall k | 0 <= k < n :: r[k] == c
  {
    if n == 0 then [] else Repeat(c, n - 1) + [c]
  }

  /** What the two requests of the loading effect yield: the product request
      fails, finds nothing, or finds a product, and then the related-products
      request fails or returns a list. */
  datatype LoadOutcome =
    | ProductRequestFailed
    | NotFound
    | Found(product: Product, catalog: Option<seq<Product>>)

  /** What the page renders. */
  datatype View = Spinner | NotFoundView(backPath: string) | Details(product: Product, addEnabled: bool)

  class ProductDetailPage {
    var quantity: int
    var product: Option<Product>
    var related: seq<Product>
    var loading: bool
    var calls: seq<Call>

    /** The stepper never shows less than one. */
    predicate Valid()
      reads this
    {
      quantity >= 1
    }

    constructor()
      ensures Valid() && quantity == 1
      ensures product == None && related == [] && loading && calls == []
    {
      quantity := 1;
      product := None;
      related := [];
      loading := true;
      calls := [];
    }

    /** The minus button: `setQuantity(Math.max(1, quantity - 1))`. */
    method Decrement()
      requires Valid()
      modifies this
      ensures Valid()
      ensures quantity == if old(quantity) > 1 then old(quantity) - 1 else 1
      ensures product == old(product) && related == old(related)
      ensures loading == old(loading) && calls == old(calls)
    {
      quantity := if quantity - 1 > 1 then quantity - 1 else 1;
    }

    /** The plus button: `setQuantity(quantity + 1)`. */
    method Increment()
      requires Valid()
      modifies this
      ensures Valid() && quantity == old(quantity) + 1
      ensures product == old(product) && related == old(related)
      ensures loading == old(loading) && calls == old(calls)
    {
      quantity := quantity + 1;
    }

    /** The loading effect for the page's `id`: a found product is shown
        at once and its related products once they arrive; a failed request
        leaves the rest as it was; the spinner always stops. The quantity is
        left alone. */
    method LoadProduct(id: string, outcome: LoadOutcome)
      requires Valid()
      modifies this
      ensures Valid() && quantity == old(quantity) && calls == old(calls) && !loading
      ensures outcome.Found? ==> product == Some(outcome.product)
      ensures !outcome.Found? ==> product == old(product)
      ensures related == if outcome.Found? && outcome.catalog.Some?
                         then Related(outcome.catalog.value, id) else old(related)
    {
      loading := true;
      match outcome {
        case ProductRequestFailed =>
        case NotFound =>
        case Found(p, catalog) =>
          product := Some(p);
          if catalog.Some? {
            related := Related(catalog.value, id);
          }
      }
      loading := false;
    }

    /** A spinner while loading, the not-found view with its way back to
        the shop when nothing loaded, and otherwise the product's details. */
    function View(): (v: View)
      reads this
      ensures loading ==> v == Spinner
      ensures !loading && product.None? ==> v == NotFoundView(ProductsPath)
      ensures v.Details? <==> !loading && product.Some?
      ensures v.Details? ==> product == Some(v.product)
      ensures v.Details? ==> (v.addEnabled <==> v.product.inStock)
    {
      if loading then Spinner
      else if product.None? then NotFoundView(ProductsPath)
      else Details(product.value, product.value.inStock)
    }

    /** `handleAddToCart`: one `addToCart(product)` per unit, then on to the
        cart. */
    method HandleAddToCart()
      requires Valid() && product.Some?
      modifies this
      ensures Valid() && quantity == old(quantity) && product == old(product)
      ensures related == old(related) && loading == old(loading)
      ensures calls == old(calls) + Repeat(AddToCart(product.value), quantity) + [Navigate(CartPath)]
    {
      var i := 0;
      while i < quantity
        invariant 0 <= i <= quantity
        invariant quantity == old(quantity) && product == old(product)
        invariant related == old(related) && loading == old(loading)
        invariant calls == old(calls) + Repeat(AddToCart(product.value), i)
      {
        calls := calls + [AddToCart(product.value)];
        i := i + 1;
      }
      calls := calls + [Navigate(CartPath)];
    }

    /** A click on the add button, which is disabled for a product that is
        out of stock. */
    method ClickAddToCart()
      requires Valid() && View().Details?
      modifies this
      ensures Valid() && quantity == old(quantity) && product == old(product)
      ensures related == old(related) && loading == old(loading)
      ensures product.value.inStock ==>
        calls == old(calls) + Repeat(AddToCart(product.value), quantity) + [Navigate(CartPath)]
      ensures !product.value.inStock ==> calls == old(calls)
    {
      if View().addEnabled {
        HandleAddToCart();
      }
    }
  }
}
