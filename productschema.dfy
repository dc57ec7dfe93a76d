/** The product schema (server/models/Product.js) read as a validator: the
    `trim` setter on `name` runs first, then each path is checked in schema
    order, `required` before the other rules of that path, and at most one
    violation is reported per path; absent optional paths take their
    defaults. Prices are integers (cents); ratings and stock are reals, as
    a JavaScript `Number` may be fractional. Casting from other JavaScript types and the timestamps are not
    part of this model. */
module ProductSchema {
  import opened Wrappers
  import opened Text

  const Categories: seq<string> := ["Electronics", "Fashion", "Home", "Sports"]

  /** A document as submitted: every path may be absent. */
  datatype ProductInput = ProductInput(
    name: Option<string>, price: Option<int>, image: Option<string>,
    category: Option<string>, description: Option<string>,
    rating: Option<real>, inStock: Option<bool>, stock: Option<real>)

  /** A stored product. */
  datatype ProductRecord = ProductRecord(
    name: string, price: int, image: string, category: string, description: string,
    rating: real, inStock: bool, stock: real)

  datatype PathName = NamePath | PricePath | ImagePath | CategoryPath | DescriptionPath | RatingPath | StockPath

  datatype Rule = Required(message: string) | Min(bound: real) | Max(bound: real) | Enum

  datatype Violation = Violation(path: PathName, rule: Rule)

  datatype Result = Saved(record: ProductRecord) | Invalid(violations: seq<Violation>)

  const NameRequired := "Please add a product name"
  const PriceRequired := "Please add a price"
  const ImageRequired := "Please add an image URL"
  const CategoryRequired := "Please add a category"
  const DescriptionRequired := "Please add a description"

  /** `required` on a string path: present and not the empty string. */
  function RequiredString(path: PathName, v: Option<string>, message: string): Option<Violation> {
    if v.None? || v.value == "" then Some(Violation(path, Required(message))) else None
  }

  /** The `name` path after its `trim` setter. */
  function SetName(input: ProductInput): Option<string> {
    match input.name
    case Some(s) => Some(Trim(s))
    case None => None
  }

  function NameViolation(input: ProductInput): (r: Option<Violation>)
    ensures r.Some? ==> r.value == Violation(NamePath, Required(NameRequired))
    ensures r.None? <==> input.name.Some? && Trim(input.name.value) != ""
  {
    RequiredString(NamePath, SetName(input), NameRequired)
  }

  function PriceViolation(input: ProductInput): (r: Option<Violation>)
    ensures r.Some? ==> r.value.path == PricePath
    ensures input.price.None? ==> r == Some(Violation(PricePath, Required(PriceRequired)))
    ensures r.None? <==> input.price.Some? && input.price.value >= 0
  {
    match input.price
    case None => Some(Violation(PricePath, Required(PriceRequired)))
    case Some(p) => if p < 0 then Some(Violation(PricePath, Min(0.0))) else None
  }

  function ImageViolation(input: ProductInput): (r: Option<Violation>)
    ensures r.Some? ==> r.value == Violation(ImagePath, Required(ImageRequired))
    ensures r.None? <==> input.image.Some? && input.image.value != ""
  {
    RequiredString(ImagePath, input.image, ImageRequired)
  }

  function CategoryViolation(input: ProductInput): (r: Option<Violation>)
    ensures r.Some? ==> r.value.path == CategoryPath
    ensures input.category.None? || input.category.value == "" ==>
      r == Some(Violation(CategoryPath, Required(CategoryRequired)))
    ensures r.None? <==> input.category.Some? && input.category.value in Categories
  {
    var r := RequiredString(CategoryPath, input.category, CategoryRequired);
    if r.Some? then r
    else if input.category.value !in Categories then Some(Violation(CategoryPath, Enum))
    else None
  }

  function DescriptionViolation(input: ProductInput): (r: Option<Violation>)
    ensures r.Some? ==> r.value == Violation(DescriptionPath, Required(DescriptionRequired))
    ensures r.None? <==> input.description.Some? && input.description.value != ""
  {
    RequiredString(DescriptionPath, input.description, DescriptionRequired)
  }

  /** `rating`, defaulting to 0, must lie in [0, 5]; `min` is checked first. */
  function RatingViolation(input: ProductInput): (r: Option<Violation>)
    ensures r.Some? ==> r.value.path == RatingPath
    ensures r.None? <==> 0.0 <= RatingOf(input) <= 5.0
  {
    var r := RatingOf(input);
    if r < 0.0 then Some(Violation(RatingPath, Min(0.0)))
    else if r > 5.0 then Some(Violation(RatingPath, Max(5.0)))
    else None
  }

  function StockViolation(input: ProductInput): (r: Option<Violation>)
    ensures r.Some? ==> r.value.path == StockPath
    ensures r.None? <==> StockOf(input) >= 0.0
  {
    if StockOf(input) < 0.0 then Some(Violation(StockPath, Min(0.0))) else None
  }

  function RatingOf(input: ProductInput): real {
    match input.rating case Some(r) => r case None => 0.0
  }

  function InStockOf(input: ProductInput): bool {
    match input.inStock case Some(b) => b case None => true
  }

  function StockOf(input: ProductInput): real {
    match input.stock case Some(n) => n case None => 0.0
  }

  /** The path checks, in schema order. */
  function Checks(input: ProductInput): seq<Option<Violation>> {
    [NameViolation(input), PriceViolation(input), ImageViolation(input),
     CategoryViolation(input), DescriptionViolation(input),
     RatingViolation(input), StockViolation(input)]
  }

  /** The violations found, in order. */
  function Found(checks: seq<Option<Violation>>): (r: seq<Violation>)
    ensures |r| <= |checks|
  {
    if checks == [] then []
    else match checks[0]
      case Some(x) => [x] + Found(checks[1..])
      case None => Found(checks[1..])
  }

  lemma {:induction false} FoundEmptyIff(checks: seq<Option<Violation>>)
    ensures Found(checks) == [] <==> forall k | 0 <= k < |checks| :: checks[k].None?
  {
    if checks != [] {
      FoundEmptyIff(checks[1..]);
      assert forall k | 1 <= k < |checks| :: checks[k] == checks[1..][k - 1];
    }
  }

  /** The violations of a document, one at most per path, in schema order. */
  function Violations(input: ProductInput): seq<Violation> {
    Found(Checks(input))
  }

  /** Saving a document: the record with setters and defaults applied, or
      the violations. */
  function Create(input: ProductInput): Result {
    var v := Violations(input);
    if v != [] then Invalid(v)
    else
      NoViolationsIff(input);
      Saved(ProductRecord(
      SetName(input).value, input.price.value, input.image.value, input.category.value,
      input.description.value, RatingOf(input), InStockOf(input), StockOf(input)))
  }

  /** What the schema promises of every stored product. */
  predicate ValidRecord(p: ProductRecord) {
    && p.name != "" && Trim(p.name) == p.name
    && p.price >= 0
    && p.image != ""
    && p.category in Categories
    && p.description != ""
    && 0.0 <= p.rating <= 5.0
    && p.stock >= 0.0
  }

  /** The schema's rules on a document, stated path by path: the name is not
      blank, the price present and not negative, image and description
      present and non-empty, the category one of the four, and rating and
      stock in range when given. */
  predicate Acceptable(input: ProductInput) {
    && input.name.Some? && !Blank(input.name.value)
    && input.price.Some? && input.price.value >= 0
    && input.image.Some? && input.image.value != ""
    && input.category.Some? && input.category.value in Categories
    && input.description.Some? && input.description.value != ""
    && (input.rating.Some? ==> 0.0 <= input.rating.value <= 5.0)
    && (input.stock.Some? ==> input.stock.value >= 0.0)
  }

  /** Seven checks all pass exactly when each of them does. */
  lemma AllSevenPass(c: seq<Option<Violation>>)
    requires |c| == 7
    ensures (forall k | 0 <= k < |c| :: c[k].None?) <==>
      c[0].None? && c[1].None? && c[2].None? && c[3].None? && c[4].None? && c[5].None? && c[6].None?
  {
  }

  /** Each check passes exactly when the document meets that path's rule. */
  lemma ChecksPassIff(input: ProductInput)
    ensures (forall k | 0 <= k < |Checks(input)| :: Checks(input)[k].None?) <==> Acceptable(input)
  {
    var c := Checks(input);
    if input.name.Some? {
      TrimEmptyIffBlank(input.name.value);
    }
    AllSevenPass(c);
    assert c[0] == NameViolation(input) && c[1] == PriceViolation(input);
    assert c[2] == ImageViolation(input) && c[3] == CategoryViolation(input);
    assert c[4] == DescriptionViolation(input) && c[5] == RatingViolation(input);
    assert c[6] == StockViolation(input);
  }

  /** A document has no violation exactly when it meets the rules. */
  lemma NoViolationsIff(input: ProductInput)
    ensures Violations(input) == [] <==> Acceptable(input)
  {
    FoundEmptyIff(Checks(input));
    ChecksPassIff(input);
  }

  /** A document is saved exactly when it meets the rules, and whatever is
      saved meets the record's invariant. */
  lemma CreateSpec(input: ProductInput)
    ensures Create(input).Saved? <==> Acceptable(input)
    ensures Create(input).Saved? ==> ValidRecord(Create(input).record)
  {
    NoViolationsIff(input);
    if input.name.Some? {
      TrimEmptyIffBlank(input.name.value);
      TrimIdempotent(input.name.value);
    }
  }

  /** A saved product has its name trimmed and the defaults (rating 0, in
      stock, stock 0) for the paths the document left out. */
  lemma CreateFillsDefaults(input: ProductInput)
    requires Create(input).Saved?
    ensures Create(input).record.name == Trim(input.name.value)
    ensures input.rating.None? ==> Create(input).record.rating == 0.0
    ensures input.inStock.None? ==> Create(input).record.inStock
    ensures input.stock.None? ==> Create(input).record.stock == 0.0
    ensures input.rating.Some? ==> Create(input).record.rating == input.rating.value
    ensures input.inStock.Some? ==> Create(input).record.inStock == input.inStock.value
    ensures input.stock.Some? ==> Create(input).record.stock == input.stock.value
  {
  }

  /** Whitespace around a name is dropped and a name of only whitespace is
      missing, with the schema's own message. */
  lemma BlankNameIsMissing(input: ProductInput)
    requires input.name.Some? && Blank(input.name.value)
    ensures Create(input).Invalid?
    ensures Create(input).violations[0] == Violation(NamePath, Required(NameRequired))
  {
    TrimEmptyIffBlank(input.name.value);
  }

  /** Checks that each report on their own path report each path at most once. */
  lemma {:induction false} FoundDistinct(checks: seq<Option<Violation>>, paths: seq<PathName>)
    requires |paths| == |checks|
    requires forall i, j | 0 <= i < j < |paths| :: paths[i] != paths[j]
    requires forall k | 0 <= k < |checks| && checks[k].Some? :: checks[k].value.path == paths[k]
    ensures forall x | x in Found(checks) :: x.path in paths
    ensures forall i, j | 0 <= i < j < |Found(checks)| :: Found(checks)[i].path != Found(checks)[j].path
  {
    if checks != [] {
      FoundDistinct(checks[1..], paths[1..]);
      var rest := Found(checks[1..]);
      forall x | x in rest ensures x.path != paths[0] {
        var k :| 0 <= k < |paths[1..]| && paths[1..][k] == x.path;
        assert paths[k + 1] == x.path;
      }
      if checks[0].Some? {
        var v := Found(checks);
        assert v == [checks[0].value] + rest;
        forall i, j | 0 <= i < j < |v| ensures v[i].path != v[j].path {
          assert v[j] == rest[j - 1];
          assert rest[j - 1] in rest;
          if i > 0 {
            assert v[i] == rest[i - 1];
          } else {
            assert v[0].path == paths[0];
          }
        }
      }
    }
  }

  /** No path is reported twice. */
  lemma OneViolationPerPath(input: ProductInput)
    ensures forall i, j | 0 <= i < j < |Violations(input)| ::
      Violations(input)[i].path != Violations(input)[j].path
  {
    var c := Checks(input);
    assert c[0] == NameViolation(input) && c[1] == PriceViolation(input);
    assert c[2] == ImageViolation(input) && c[3] == CategoryViolation(input);
    assert c[4] == DescriptionViolation(input) && c[5] == RatingViolation(input);
    assert c[6] == StockViolation(input);
    FoundDistinct(Checks(input),
      [NamePath, PricePath, ImagePath, CategoryPath, DescriptionPath, RatingPath, StockPath]);
  }

  /** The document of a stored product. */
  function ToInput(p: ProductRecord): ProductInput {
    ProductInput(Some(p.name), Some(p.price), Some(p.image), Some(p.category),
                 Some(p.description), Some(p.rating), Some(p.inStock), Some(p.stock))
  }

  /** Saving a valid product's own document gives the product back. */
  lemma CreateRoundTrip(p: ProductRecord)
    requires ValidRecord(p)
    ensures Create(ToInput(p)) == Saved(p)
  {
    var input := ToInput(p);
    assert Acceptable(input) by {
      TrimEmptyIffBlank(p.name);
    }
    NoViolationsIff(input);
    assert SetName(input) == Some(p.name);
  }
}
