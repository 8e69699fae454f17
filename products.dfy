/** The product routes: create, read, update and delete a product, attach an
    image, and append, list, read, update and delete embedded reviews. The
    document store is a map from ObjectId to product held by a `Catalog`. */
module Products {
  import opened Wrappers
  import opened Schema
  import opened ErrorHandlers

  /** A route parameter: the text of the path segment, and the ObjectId it
      casts to, or None when it is not a well-formed ObjectId. */
  datatype IdParam = IdParam(text: string, key: Option<Key>)

  /** Why a route handler called `next` with an error. */
  datatype Failure =
    | BadId(text: string)                // a Mongoose CastError on an id
    | NotFoundProduct(productId: string) // createHttpError(404, "Product with id ...")
    | NotFoundReview(reviewId: string)   // createHttpError(404, "Review with id ...")
    | Invalid(paths: seq<Path>)          // a Mongoose ValidationError
    | Internal(detail: string)           // any other exception

  /** What a route handler does: answer with a value, or pass an error on. */
  datatype Outcome<T> = Ok(value: T) | Fail(failure: Failure)

  const UploadedText := "File uploaded successfully"
  const NullProductDetail := "Cannot set properties of null (setting 'imageUrl')"
  const NoFileDetail := "Cannot read properties of undefined (reading 'path')"

  function ProductNotFoundText(id: string): string
  {
    "Product with id " + id + " not found"
  }

  function ReviewNotFoundText(id: string): string
  {
    "Review with id " + id + " not found"
  }

  function CastText(text: string): string
  {
    "Cast to ObjectId failed for value \"" + text + "\" (type string) at path \"_id\""
  }

  function DigitText(d: nat): string
    requires d < 10
  {
    ["0123456789"[d]]
  }

  function NatText(n: nat): string
  {
    if n < 10 then DigitText(n) else NatText(n / 10) + DigitText(n % 10)
  }

  function PathText(p: Path): string
  {
    match p
    case Field(name) => name
    case ReviewField(i, name) => "reviews." + NatText(i) + "." + name
  }

  /** The validation message: the failing paths, comma separated. */
  function ValidationText(paths: seq<Path>): string
  {
    if paths == [] then "Validation failed"
    else ValidationText(paths[..|paths| - 1]) + (if |paths| == 1 then ": " else ", ") + PathText(paths[|paths| - 1])
  }

  /** The error object a handler passes to `next`. A Mongoose ValidationError
      has no `errorsList` property, so none is carried. */
  function ErrorOf(f: Failure): (e: AppError)
    ensures e.errorsList.None?
    ensures (f.NotFoundProduct? || f.NotFoundReview?) <==> e.status == Some(404)
  {
    match f
    case BadId(text) => AppError(CastError, None, CastText(text), None)
    case NotFoundProduct(id) => AppError(OtherError, Some(404), ProductNotFoundText(id), None)
    case NotFoundReview(id) => AppError(OtherError, Some(404), ReviewNotFoundText(id), None)
    case Invalid(paths) => AppError(ValidationError, None, ValidationText(paths), None)
    case Internal(detail) => AppError(OtherError, None, detail, None)
  }

  /** The response the error chain sends for each failure of a route. */
  lemma FailureResponses(f: Failure)
    ensures Classify(ErrorOf(f)) == match f
      case BadId(_) => Response(400, Body(BadIdText, None))
      case NotFoundProduct(id) => Response(404, Body(ProductNotFoundText(id), None))
      case NotFoundReview(id) => Response(404, Body(ReviewNotFoundText(id), None))
      case Invalid(paths) => Response(400, Body(ValidationText(paths), None))
      case Internal(_) => Response(500, Body(ServerSideText, None))
  {
    ClassifyTable(ErrorOf(f));
  }

  /** A product-scoped 404 never reads like a review-scoped one. */
  lemma ScopesDiffer(productId: string, reviewId: string)
    ensures ProductNotFoundText(productId) != ReviewNotFoundText(reviewId)
  {
    assert ProductNotFoundText(productId)[0] == 'P';
    assert ReviewNotFoundText(reviewId)[0] == 'R';
  }

  // ---------------------------------------------------------------------
  // Addressing reviews inside a product

  /** `r._id.toString() === reviewId`. */
  predicate Matches(r: Review, rid: IdParam)
  {
    rid.key == Some(r.id)
  }

  /** The index of the first review matching `rid`, or -1. */
  function FirstMatch(rs: seq<Review>, rid: IdParam): (i: int)
    ensures -1 <= i < |rs|
    ensures i >= 0 ==> Matches(rs[i], rid) && forall j :: 0 <= j < i ==> !Matches(rs[j], rid)
    ensures i == -1 ==> forall j :: 0 <= j < |rs| ==> !Matches(rs[j], rid)
    decreases |rs|
  {
    if rs == [] then -1
    else if Matches(rs[0], rid) then 0
    else
      var k := FirstMatch(rs[1..], rid);
      assert forall j :: 1 <= j < |rs| ==> rs[j] == rs[1..][j - 1];
      if k == -1 then -1 else k + 1
  }

  /** `reviews.findIndex(...)`: a linear scan for the first match. */
  method FindReviewIndex(rs: seq<Review>, rid: IdParam) returns (index: int)
    ensures index == FirstMatch(rs, rid)
  {
    var i := 0;
    while i < |rs|
      invariant 0 <= i <= |rs|
      invariant forall j :: 0 <= j < i ==> !Matches(rs[j], rid)
    {
      if Matches(rs[i], rid) {
        FirstMatchUnique(rs, rid, i);
        return i;
      }
      i := i + 1;
    }
    index := -1;
  }

  /** `reviews.find(...)`: the first matching review, if any. */
  method FindReview(rs: seq<Review>, rid: IdParam) returns (found: Option<Review>)
    ensures FirstMatch(rs, rid) == -1 ==> found.None?
    ensures FirstMatch(rs, rid) >= 0 ==> found == Some(rs[FirstMatch(rs, rid)])
  {
    var i := 0;
    while i < |rs|
      invariant 0 <= i <= |rs|
      invariant forall j :: 0 <= j < i ==> !Matches(rs[j], rid)
    {
      if Matches(rs[i], rid) {
        FirstMatchUnique(rs, rid, i);
        return Some(rs[i]);
      }
      i := i + 1;
    }
    found := None;
  }

  /** The first-match contract pins down a single index. */
  lemma FirstMatchUnique(rs: seq<Review>, rid: IdParam, i: nat)
    requires i < |rs| && Matches(rs[i], rid)
    requires forall j :: 0 <= j < i ==> !Matches(rs[j], rid)
    ensures FirstMatch(rs, rid) == i
  {
  }

  /** `$pull: { reviews: { _id } }`: drop every review with that id. */
  function Pull(rs: seq<Review>, key: Key): (kept: seq<Review>)
    ensures |kept| <= |rs|
    ensures forall i :: 0 <= i < |kept| ==> kept[i].id != key && kept[i] in rs
    ensures forall i :: 0 <= i < |rs| && rs[i].id != key ==> rs[i] in kept
    decreases |rs|
  {
    if rs == [] then []
    else
      var rest := Pull(rs[1..], key);
      assert forall j :: 1 <= j < |rs| ==> rs[j] == rs[1..][j - 1];
      if rs[0].id == key then rest else [rs[0]] + rest
  }

  /** Pulling works element by element and keeps the survivors in their
      order: pulling from a concatenation concatenates the pulls. */
  lemma {:induction false} PullConcat(a: seq<Review>, b: seq<Review>, key: Key)
    ensures Pull(a + b, key) == Pull(a, key) + Pull(b, key)
    decreases |a|
  {
    if a == [] {
      assert a + b == b;
    } else {
      assert (a + b)[1..] == a[1..] + b;
      PullConcat(a[1..], b, key);
    }
  }

  /** A single review survives exactly when its id differs. */
  lemma PullOne(r: Review, key: Key)
    ensures Pull([r], key) == if r.id == key then [] else [r]
  {
    assert [r][1..] == [];
  }

  /** Pulling an id that no review has leaves the reviews as they were. */
  lemma {:induction false} PullAbsent(rs: seq<Review>, key: Key)
    requires forall i :: 0 <= i < |rs| ==> rs[i].id != key
    ensures Pull(rs, key) == rs
    decreases |rs|
  {
    if rs != [] {
      PullAbsent(rs[1..], key);
      assert [rs[0]] + rs[1..] == rs;
    }
  }

  /** With distinct ids, pulling the id of the review at `i` removes just
      that review, so the sequence shrinks by exactly one. */
  lemma {:induction false} PullPresent(rs: seq<Review>, key: Key, i: nat)
    requires DistinctIds(rs) && i < |rs| && rs[i].id == key
    ensures Pull(rs, key) == rs[..i] + rs[i + 1..]
    ensures |Pull(rs, key)| == |rs| - 1
    decreases |rs|
  {
    DistinctTail(rs);
    if i == 0 {
      PullPresentHead(rs, key);
    } else {
      var tail := rs[1..];
      assert tail[i - 1] == rs[i];
      PullPresent(tail, key, i - 1);
      assert rs[..i] == [rs[0]] + tail[..i - 1];
      assert rs[i + 1..] == tail[i..];
      assert Pull(rs, key) == [rs[0]] + Pull(tail, key);
    }
  }

  lemma PullPresentHead(rs: seq<Review>, key: Key)
    requires DistinctIds(rs) && rs != [] && rs[0].id == key
    ensures Pull(rs, key) == rs[1..]
  {
    var tail := rs[1..];
    forall j | 0 <= j < |tail| ensures tail[j].id != key {
      assert tail[j] == rs[j + 1];
    }
    PullAbsent(tail, key);
  }

  lemma DistinctTail(rs: seq<Review>)
    requires DistinctIds(rs) && rs != []
    ensures DistinctIds(rs[1..])
  {
    forall a, b | 0 <= a < b < |rs| - 1 ensures rs[1..][a].id != rs[1..][b].id {
      assert rs[1..][a] == rs[a + 1] && rs[1..][b] == rs[b + 1];
    }
  }

  /** Pulling keeps the remaining reviews in order, so distinct ids stay distinct. */
  lemma {:induction false} PullDistinct(rs: seq<Review>, key: Key)
    requires DistinctIds(rs)
    ensures DistinctIds(Pull(rs, key))
    decreases |rs|
  {
    if rs != [] {
      PullDistinct(rs[1..], key);
      var rest := Pull(rs[1..], key);
      if rs[0].id != key {
        forall j | 0 <= j < |rest| ensures rest[j].id != rs[0].id {
          var m :| m in rs[1..] && m == rest[j];
        }
      }
    }
  }

  // ---------------------------------------------------------------------
  // Documents built from request bodies

  /** `new ProductsModel(body)` with the fresh id `key`; the body's reviews
      get the ids that follow it. */
  function NewProduct(key: Key, b: ProductBody): (p: Product)
    ensures p.id == key && IdsBelow(p.reviews, key + 1 + |p.reviews|) && DistinctIds(p.reviews)
    ensures forall i :: 0 <= i < |p.reviews| ==> p.reviews[i].id > key
  {
    Product(key, b.name, b.description, b.brand, b.imageUrl, b.price, b.category,
            if b.reviews.Some? then Embed(b.reviews.value, key + 1) else [])
  }

  function NewReviewCount(b: ProductBody): nat
  {
    if b.reviews.Some? then |b.reviews.value| else 0
  }

  /** `findByIdAndUpdate(id, body)`: the fields the body sets replace the
      stored ones; a body array of reviews replaces the whole array. */
  function OverlayProduct(p: Product, b: ProductBody, from: Key): (q: Product)
  {
    Product(p.id, Overlay(b.name, p.name), Overlay(b.description, p.description),
            Overlay(b.brand, p.brand), Overlay(b.imageUrl, p.imageUrl),
            Overlay(b.price, p.price), Overlay(b.category, p.category),
            if b.reviews.Some? then Embed(b.reviews.value, from) else p.reviews)
  }

  /** `{ ...old.toObject(), ...body }`: the id and every field the body does
      not set are kept. */
  function OverlayReview(r: Review, b: ReviewFields): Review
  {
    Review(r.id, ReviewFields(Overlay(b.comment, r.fields.comment), Overlay(b.rating, r.fields.rating)))
  }

  /** A valid update of a valid product gives a valid product: the update
      validators look only at the set paths, and the others were valid. */
  lemma OverlayKeepsValid(p: Product, b: ProductBody, from: Key)
    requires ValidProduct(p) && ValidPatch(b)
    ensures ValidProduct(OverlayProduct(p, b, from))
  {
  }

  /** An overlay that sets a field shows the new value, and one that does
      not keeps the old one; the id never changes. */
  lemma OverlayFields(p: Product, b: ProductBody, from: Key)
    ensures OverlayProduct(p, b, from).id == p.id
    ensures b.name.Some? ==> OverlayProduct(p, b, from).name == b.name
    ensures b.name.None? ==> OverlayProduct(p, b, from).name == p.name
    ensures b.description.Some? ==> OverlayProduct(p, b, from).description == b.description
    ensures b.description.None? ==> OverlayProduct(p, b, from).description == p.description
    ensures b.brand.Some? ==> OverlayProduct(p, b, from).brand == b.brand
    ensures b.brand.None? ==> OverlayProduct(p, b, from).brand == p.brand
    ensures b.imageUrl.Some? ==> OverlayProduct(p, b, from).imageUrl == b.imageUrl
    ensures b.imageUrl.None? ==> OverlayProduct(p, b, from).imageUrl == p.imageUrl
    ensures b.price.Some? ==> OverlayProduct(p, b, from).price == b.price
    ensures b.price.None? ==> OverlayProduct(p, b, from).price == p.price
    ensures b.category.Some? ==> OverlayProduct(p, b, from).category == b.category
    ensures b.category.None? ==> OverlayProduct(p, b, from).category == p.category
    ensures b.reviews.Some? ==> OverlayProduct(p, b, from).reviews == Embed(b.reviews.value, from)
    ensures b.reviews.None? ==> OverlayProduct(p, b, from).reviews == p.reviews
  {
  }

  /** An empty body changes nothing, and applying a body twice is the same
      as applying it once. */
  lemma OverlayReviewLaws(r: Review, b: ReviewFields)
    ensures OverlayReview(r, ReviewFields(None, None)) == r
    ensures OverlayReview(OverlayReview(r, b), b) == OverlayReview(r, b)
    ensures OverlayReview(r, b).id == r.id
    ensures b.comment.None? ==> OverlayReview(r, b).fields.comment == r.fields.comment
    ensures b.rating.None? ==> OverlayReview(r, b).fields.rating == r.fields.rating
  {
  }

  /** Replacing one review of a valid product leaves it valid exactly when
      the replacement is valid. */
  lemma ReplaceReviewValid(p: Product, i: nat, r: Review)
    requires ValidProduct(p) && i < |p.reviews|
    ensures ValidProduct(p.(reviews := p.reviews[i := r])) <==> ValidReview(r.fields)
  {
    var q := p.(reviews := p.reviews[i := r]);
    assert q.reviews[i] == r;
  }

  /** What the store invariant asks of a product stored under `k` while the
      id counter stands at `bound`. */
  predicate WellStored(k: Key, p: Product, bound: Key)
  {
    p.id == k && k < bound && ValidProduct(p) && IdsBelow(p.reviews, bound) && DistinctIds(p.reviews)
  }

  // ---------------------------------------------------------------------
  // The store and its routes

  class Catalog {
    var products: map<Key, Product>
    /** The next fresh ObjectId. */
    var nextKey: Key

    ghost predicate Valid()
      reads this
    {
      forall k :: k in products ==> WellStored(k, products[k], nextKey)
    }

    constructor ()
      ensures Valid() && products == map[] && nextKey == 0
    {
      products := map[];
      nextKey := 0;
    }

    /** POST /products: validate and store a new product, answer 201 with its id. */
    method Create(body: ProductBody) returns (r: Outcome<Key>)
      requires Valid()
      modifies this
      ensures Valid()
      ensures var p := NewProduct(old(nextKey), body);
        if ValidProduct(p) then
          && r == Ok(p.id) && p.id !in old(products)
          && products == old(products)[p.id := p]
          && nextKey == old(nextKey) + 1 + |p.reviews|
        else
          && r == Fail(Invalid(ProductErrors(p)))
          && products == old(products) && nextKey == old(nextKey)
    {
      var p := NewProduct(nextKey, body);
      var errs := ProductErrors(p);
      if errs != [] {
        return Fail(Invalid(errs));
      }
      var bound := nextKey + 1 + |p.reviews|;
      assert forall k :: k in products ==> WellStored(k, products[k], bound);
      products := products[p.id := p];
      nextKey := bound;
      r := Ok(p.id);
    }

    /** GET /products/:productId. */
    method Get(id: IdParam) returns (r: Outcome<Product>)
      ensures id.key.None? ==> r == Fail(BadId(id.text))
      ensures id.key.Some? && id.key.value in products ==> r == Ok(products[id.key.value])
      ensures id.key.Some? && id.key.value !in products ==> r == Fail(NotFoundProduct(id.text))
    {
      if id.key.None? {
        return Fail(BadId(id.text));
      }
      var k := id.key.value;
      if k in products {
        r := Ok(products[k]);
      } else {
        r := Fail(NotFoundProduct(id.text));
      }
    }

    /** PUT /products/:productId: `findByIdAndUpdate` with `new: true` and
      `runValidators: true`. The id is cast and the body validated before
      the query runs, so an invalid body is refused even for a missing id. */
    method Update(id: IdParam, body: ProductBody) returns (r: Outcome<Product>)
      requires Valid()
      modifies this
      ensures Valid()
      ensures id.key.None? ==> r == Fail(BadId(id.text))
      ensures id.key.Some? && !ValidPatch(body) ==> r == Fail(Invalid(PatchErrors(body)))
      ensures id.key.Some? && ValidPatch(body) && id.key.value !in old(products) ==>
        r == Fail(NotFoundProduct(id.text))
      ensures r.Fail? ==> products == old(products) && nextKey == old(nextKey)
      ensures r.Ok? <==> id.key.Some? && ValidPatch(body) && id.key.value in old(products)
      ensures r.Ok? ==>
        && r.value == OverlayProduct(old(products)[id.key.value], body, old(nextKey))
        && products == old(products)[id.key.value := r.value]
        && nextKey == old(nextKey) + NewReviewCount(body)
    {
      if id.key.None? {
        return Fail(BadId(id.text));
      }
      var errs := PatchErrors(body);
      if errs != [] {
        return Fail(Invalid(errs));
      }
      var k := id.key.value;
      if k !in products {
        return Fail(NotFoundProduct(id.text));
      }
      var q := OverlayProduct(products[k], body, nextKey);
      OverlayKeepsValid(products[k], body, nextKey);
      var bound := nextKey + NewReviewCount(body);
      assert forall j :: j in products ==> WellStored(j, products[j], bound);
      products := products[k := q];
      nextKey := bound;
      r := Ok(q);
    }

    /** DELETE /products/:productId: answer 204 when a product was removed. */
    method Delete(id: IdParam) returns (r: Outcome<()>)
      requires Valid()
      modifies this
      ensures Valid() && nextKey == old(nextKey)
      ensures id.key.None? ==> r == Fail(BadId(id.text)) && products == old(products)
      ensures id.key.Some? && id.key.value !in old(products) ==>
        r == Fail(NotFoundProduct(id.text)) && products == old(products)
      ensures id.key.Some? && id.key.value in old(products) ==>
        r == Ok(()) && products == old(products) - {id.key.value}
    {
      if id.key.None? {
        return Fail(BadId(id.text));
      }
      var k := id.key.value;
      if k !in products {
        return Fail(NotFoundProduct(id.text));
      }
      products := products - {k};
      r := Ok(());
    }

    /** POST /products/:productId/uploadImage as the handler is written:
      `product.imageUrl = req.file.path` runs before the null check, so a
      missing product throws a TypeError and the 404 branch is never taken.
      `file` is the path the upload middleware reports, if a file came. */
    method AttachImageAsWritten(id: IdParam, file: Option<string>) returns (r: Outcome<string>)
      requires Valid()
      modifies this
      ensures Valid() && nextKey == old(nextKey)
      ensures id.key.None? ==> r == Fail(BadId(id.text))
      ensures id.key.Some? && file.None? ==> r == Fail(Internal(NoFileDetail))
      ensures id.key.Some? && file.Some? && id.key.value !in old(products) ==>
        r == Fail(Internal(NullProductDetail))
      ensures r.Fail? ==> products == old(products)
      ensures r.Ok? <==> id.key.Some? && file.Some? && id.key.value in old(products)
      ensures r.Ok? ==>
        && r.value == UploadedText
        && products == old(products)[id.key.value := old(products)[id.key.value].(imageUrl := file)]
    {
      if id.key.None? {
        return Fail(BadId(id.text));
      }
      if file.None? {
        return Fail(Internal(NoFileDetail));
      }
      var k := id.key.value;
      if k !in products {
        return Fail(Internal(NullProductDetail));
      }
      SetImageUrl(k, file.value);
      r := Ok(UploadedText);
    }

    /** POST /products/:productId/uploadImage with the product checked before
      it is touched, so a missing product gets the product-scoped 404. */
    method AttachImage(id: IdParam, file: Option<string>) returns (r: Outcome<string>)
      requires Valid()
      modifies this
      ensures Valid() && nextKey == old(nextKey)
      ensures id.key.None? ==> r == Fail(BadId(id.text))
      ensures id.key.Some? && id.key.value !in old(products) ==> r == Fail(NotFoundProduct(id.text))
      ensures id.key.Some? && id.key.value in old(products) && file.None? ==> r == Fail(Internal(NoFileDetail))
      ensures r.Fail? ==> products == old(products)
      ensures r.Ok? <==> id.key.Some? && file.Some? && id.key.value in old(products)
      ensures r.Ok? ==>
        && r.value == UploadedText
        && products == old(products)[id.key.value := old(products)[id.key.value].(imageUrl := file)]
    {
      if id.key.None? {
        return Fail(BadId(id.text));
      }
      var k := id.key.value;
      if k !in products {
        return Fail(NotFoundProduct(id.text));
      }
      if file.None? {
        return Fail(Internal(NoFileDetail));
      }
      SetImageUrl(k, file.value);
      r := Ok(UploadedText);
    }

    /** `product.imageUrl = url; await product.save()`. */
    method SetImageUrl(k: Key, url: string)
      requires Valid() && k in products
      modifies this
      ensures Valid() && nextKey == old(nextKey)
      ensures products == old(products)[k := old(products)[k].(imageUrl := Some(url))]
    {
      ImageUrlOptional(products[k], Some(url));
      products := products[k := products[k].(imageUrl := Some(url))];
    }

    /** POST /products/:productId/reviews: `$push` one review with a fresh id
      at the end of the product's reviews. */
    method PushReview(id: IdParam, body: ReviewFields) returns (r: Outcome<Product>)
      requires Valid()
      modifies this
      ensures Valid()
      ensures id.key.None? ==> r == Fail(BadId(id.text))
      ensures id.key.Some? && !ValidReview(body) ==> r == Fail(Invalid(ReviewErrors(body, 0)))
      ensures id.key.Some? && ValidReview(body) && id.key.value !in old(products) ==>
        r == Fail(NotFoundProduct(id.text))
      ensures r.Fail? ==> products == old(products) && nextKey == old(nextKey)
      ensures r.Ok? <==> id.key.Some? && ValidReview(body) && id.key.value in old(products)
      ensures r.Ok? ==>
        var p := old(products)[id.key.value];
        && r.value == p.(reviews := p.reviews + [Review(old(nextKey), body)])
        && products == old(products)[id.key.value := r.value]
        && nextKey == old(nextKey) + 1
    {
      if id.key.None? {
        return Fail(BadId(id.text));
      }
      var errs := ReviewErrors(body, 0);
      if errs != [] {
        return Fail(Invalid(errs));
      }
      var k := id.key.value;
      if k !in products {
        return Fail(NotFoundProduct(id.text));
      }
      var p := products[k];
      var q := p.(reviews := p.reviews + [Review(nextKey, body)]);
      assert WellStored(k, q, nextKey + 1);
      assert forall j :: j in products ==> WellStored(j, products[j], nextKey + 1);
      products := products[k := q];
      nextKey := nextKey + 1;
      r := Ok(q);
    }

    /** GET /products/:productId/reviews. */
    method ListReviews(id: IdParam) returns (r: Outcome<seq<Review>>)
      ensures id.key.None? ==> r == Fail(BadId(id.text))
      ensures id.key.Some? && id.key.value in products ==> r == Ok(products[id.key.value].reviews)
      ensures id.key.Some? && id.key.value !in products ==> r == Fail(NotFoundProduct(id.text))
    {
      if id.key.None? {
        return Fail(BadId(id.text));
      }
      var k := id.key.value;
      if k in products {
        r := Ok(products[k].reviews);
      } else {
        r := Fail(NotFoundProduct(id.text));
      }
    }

    /** GET /products/:productId/reviews/:reviewId. A missing product is
      reported before the review is looked for; the review id is compared
      as text, so a malformed one simply matches nothing. */
    method GetReview(pid: IdParam, rid: IdParam) returns (r: Outcome<Review>)
      ensures pid.key.None? ==> r == Fail(BadId(pid.text))
      ensures pid.key.Some? && pid.key.value !in products ==> r == Fail(NotFoundProduct(pid.text))
      ensures pid.key.Some? && pid.key.value in products ==>
        var rs := products[pid.key.value].reviews;
        && (FirstMatch(rs, rid) == -1 ==> r == Fail(NotFoundReview(rid.text)))
        && (FirstMatch(rs, rid) >= 0 ==> r == Ok(rs[FirstMatch(rs, rid)]))
    {
      if pid.key.None? {
        return Fail(BadId(pid.text));
      }
      var k := pid.key.value;
      if k !in products {
        return Fail(NotFoundProduct(pid.text));
      }
      var found := FindReview(products[k].reviews, rid);
      if found.Some? {
        r := Ok(found.value);
      } else {
        r := Fail(NotFoundReview(rid.text));
      }
    }

    /** PUT /products/:productId/reviews/:reviewId: overlay the body onto the
      first matching review in place, then `save` the whole product. */
    method UpdateReview(pid: IdParam, rid: IdParam, body: ReviewFields) returns (r: Outcome<Product>)
      requires Valid()
      modifies this
      ensures Valid() && nextKey == old(nextKey)
      ensures pid.key.None? ==> r == Fail(BadId(pid.text))
      ensures pid.key.Some? && pid.key.value !in old(products) ==> r == Fail(NotFoundProduct(pid.text))
      ensures pid.key.Some? && pid.key.value in old(products) ==>
        var p := old(products)[pid.key.value];
        var i := FirstMatch(p.reviews, rid);
        && (i == -1 ==> r == Fail(NotFoundReview(rid.text)))
        && (i >= 0 ==>
              var q := p.(reviews := p.reviews[i := OverlayReview(p.reviews[i], body)]);
              if ValidProduct(q) then r == Ok(q) && products == old(products)[pid.key.value := q]
              else r == Fail(Invalid(ProductErrors(q))))
      ensures r.Fail? ==> products == old(products)
    {
      if pid.key.None? {
        return Fail(BadId(pid.text));
      }
      var k := pid.key.value;
      if k !in products {
        return Fail(NotFoundProduct(pid.text));
      }
      var p := products[k];
      var index := FindReviewIndex(p.reviews, rid);
      if index == -1 {
        return Fail(NotFoundReview(rid.text));
      }
      var q := p.(reviews := p.reviews[index := OverlayReview(p.reviews[index], body)]);
      var errs := ProductErrors(q);
      if errs != [] {
        return Fail(Invalid(errs));
      }
      assert WellStored(k, q, nextKey);
      products := products[k := q];
      r := Ok(q);
    }

    /** DELETE /products/:productId/reviews/:reviewId: `$pull` every review
      with that id. The review id is cast as part of the update, and a
      product without such a review is answered unchanged, not with a 404. */
    method DeleteReview(pid: IdParam, rid: IdParam) returns (r: Outcome<Product>)
      requires Valid()
      modifies this
      ensures Valid() && nextKey == old(nextKey)
      ensures pid.key.None? ==> r == Fail(BadId(pid.text))
      ensures pid.key.Some? && rid.key.None? ==> r == Fail(BadId(rid.text))
      ensures pid.key.Some? && rid.key.Some? && pid.key.value !in old(products) ==>
        r == Fail(NotFoundProduct(pid.text))
      ensures pid.key.Some? && rid.key.Some? && pid.key.value in old(products) ==>
        var p := old(products)[pid.key.value];
        && r == Ok(p.(reviews := Pull(p.reviews, rid.key.value)))
        && products == old(products)[pid.key.value := r.value]
      ensures r.Fail? ==> products == old(products)
    {
      if pid.key.None? {
        return Fail(BadId(pid.text));
      }
      if rid.key.None? {
        return Fail(BadId(rid.text));
      }
      var k := pid.key.value;
      if k !in products {
        return Fail(NotFoundProduct(pid.text));
      }
      var p := products[k];
      var q := p.(reviews := Pull(p.reviews, rid.key.value));
      PullDistinct(p.reviews, rid.key.value);
      assert WellStored(k, q, nextKey);
      products := products[k := q];
      r := Ok(q);
    }
  }

  /** Create a chair, review it, then raise the review's rating: the rating
      changes and the comment stays. */
  method ChairScenario()
  {
    var c := new Catalog();
    var chair := ProductBody(Some("Chair"), Some("wood"), Some("Acme"), None, Some(40.0), Some("furniture"), None);
    ghost var p0 := NewProduct(0, chair);
    assert ValidProduct(p0) && p0.reviews == [];
    var created := c.Create(chair);
    assert created == Ok(0) && c.products == map[0 := p0] && c.nextKey == 1;
    var id := IdParam("0", Some(0));
    var review := ReviewFields(Some("ok"), Some(4.0));
    assert ValidReview(review);
    var pushed := c.PushReview(id, review);
    ghost var p1 := p0.(reviews := [Review(1, review)]);
    assert p0.reviews + [Review(1, review)] == p1.reviews;
    assert pushed == Ok(p1) && c.products == map[0 := p1];
    var rid := IdParam("1", Some(1));
    assert FirstMatch(p1.reviews, rid) == 0;
    var updated := c.UpdateReview(id, rid, ReviewFields(None, Some(5.0)));
    assert updated.Ok? && updated.value.reviews == [Review(1, ReviewFields(Some("ok"), Some(5.0)))];
  }

  /** A created product reads back as the body with its fresh id. */
  method CreateThenGet(c: Catalog, body: ProductBody)
    requires c.Valid()
    modifies c
  {
    ghost var key := c.nextKey;
    var created := c.Create(body);
    if created.Ok? {
      var read := c.Get(IdParam("new", Some(created.value)));
      assert read == Ok(NewProduct(key, body));
      assert read.value.name == body.name && read.value.price == body.price && read.value.category == body.category;
    }
  }

  /** A deleted product reads as missing afterwards. */
  method DeleteThenGet(c: Catalog, id: IdParam)
    requires c.Valid() && id.key.Some? && id.key.value in c.products
    modifies c
  {
    var removed := c.Delete(id);
    assert removed == Ok(());
    var after := c.Get(id);
    assert after == Fail(NotFoundProduct(id.text));
  }

  /** Attaching an image to a product that does not exist: the handler as
      written answers 500, the checked one the product-scoped 404. */
  method AttachToMissingProduct()
  {
    var c := new Catalog();
    var id := IdParam("7", Some(7));
    var asWritten := c.AttachImageAsWritten(id, Some("img.png"));
    assert asWritten == Fail(Internal(NullProductDetail));
    FailureResponses(asWritten.failure);
    assert Classify(ErrorOf(asWritten.failure)).status == 500;
    var checked := c.AttachImage(id, Some("img.png"));
    assert checked == Fail(NotFoundProduct("7"));
    FailureResponses(checked.failure);
    assert Classify(ErrorOf(checked.failure)).status == 404;
  }
}
