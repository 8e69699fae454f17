/** The product and review schemas of the catalogue, recast as validity
    predicates, together with the per-path error lists that Mongoose's
    validators produce for them. */
module Schema {
  import opened Wrappers

  /** An ObjectId. The catalogue draws fresh ones from a counter. */
  type Key = nat

  /** The fields of a review as a request body carries them. */
  datatype ReviewFields = ReviewFields(comment: Option<string>, rating: Option<real>)

  /** An embedded review sub-document: its own id and its fields. */
  datatype Review = Review(id: Key, fields: ReviewFields)

  /** A stored product document (timestamps are not modelled). */
  datatype Product = Product(
    id: Key,
    name: Option<string>,
    description: Option<string>,
    brand: Option<string>,
    imageUrl: Option<string>,
    price: Option<real>,
    category: Option<string>,
    reviews: seq<Review>)

  /** The fields of a product as a request body carries them. */
  datatype ProductBody = ProductBody(
    name: Option<string>,
    description: Option<string>,
    brand: Option<string>,
    imageUrl: Option<string>,
    price: Option<real>,
    category: Option<string>,
    reviews: Option<seq<ReviewFields>>)

  const MinRating: real := 1.0
  const MaxRating: real := 5.0

  /** A `required: true` String path: Mongoose rejects a missing value and
      the empty string alike. */
  predicate RequiredText(v: Option<string>)
  {
    v.Some? && v.value != ""
  }

  /** A review's `rating`: a required Number with `min: 1, max: 5`. */
  predicate ValidRating(v: Option<real>)
  {
    v.Some? && MinRating <= v.value <= MaxRating
  }

  predicate ValidReview(f: ReviewFields)
  {
    RequiredText(f.comment) && ValidRating(f.rating)
  }

  predicate ValidReviews(rs: seq<Review>)
  {
    forall i :: 0 <= i < |rs| ==> ValidReview(rs[i].fields)
  }

  /** `productSchema`: five required paths, an optional `imageUrl`, and an
      array of review sub-documents each validated by `reviewsSchema`. */
  predicate ValidProduct(p: Product)
  {
    && RequiredText(p.name)
    && RequiredText(p.description)
    && RequiredText(p.brand)
    && p.price.Some?
    && RequiredText(p.category)
    && ValidReviews(p.reviews)
  }

  /** Update validators check only the paths an update sets. */
  predicate ValidPatch(b: ProductBody)
  {
    && (b.name.Some? ==> RequiredText(b.name))
    && (b.description.Some? ==> RequiredText(b.description))
    && (b.brand.Some? ==> RequiredText(b.brand))
    && (b.category.Some? ==> RequiredText(b.category))
    && (b.reviews.Some? ==> forall i :: 0 <= i < |b.reviews.value| ==> ValidReview(b.reviews.value[i]))
  }

  predicate DistinctIds(rs: seq<Review>)
  {
    forall i, j :: 0 <= i < j < |rs| ==> rs[i].id != rs[j].id
  }

  predicate IdsBelow(rs: seq<Review>, bound: Key)
  {
    forall i :: 0 <= i < |rs| ==> rs[i].id < bound
  }

  /** Casting an array of review bodies into sub-documents gives each a
      fresh id; here the ids `from`, `from + 1`, ... */
  function Embed(fs: seq<ReviewFields>, from: Key): (rs: seq<Review>)
    ensures |rs| == |fs| && DistinctIds(rs)
    ensures forall i :: 0 <= i < |rs| ==> from <= rs[i].id < from + |fs| && rs[i].fields == fs[i]
  {
    seq(|fs|, i requires 0 <= i < |fs| => Review(from + i, fs[i]))
  }

  // ---------------------------------------------------------------------
  // Validation errors: the list of failing paths

  /** A schema path: a top-level field, or a field of the review at an index. */
  datatype Path = Field(name: string) | ReviewField(index: nat, name: string)

  function TextErrors(name: string, v: Option<string>): seq<Path>
  {
    if RequiredText(v) then [] else [Field(name)]
  }

  function ReviewErrors(f: ReviewFields, index: nat): (errs: seq<Path>)
    ensures errs == [] <==> ValidReview(f)
    ensures forall k :: 0 <= k < |errs| ==> errs[k].ReviewField? && errs[k].index == index
  {
    (if RequiredText(f.comment) then [] else [ReviewField(index, "comment")]) +
    (if ValidRating(f.rating) then [] else [ReviewField(index, "rating")])
  }

  /** The failing paths of the reviews `rs`, the first of which sits at `from`. */
  function ReviewsErrors(rs: seq<Review>, from: nat): (errs: seq<Path>)
    ensures errs == [] <==> ValidReviews(rs)
    ensures forall k :: 0 <= k < |errs| ==> errs[k].ReviewField? && from <= errs[k].index < from + |rs|
    decreases |rs|
  {
    if rs == [] then []
    else
      var rest := ReviewsErrors(rs[1..], from + 1);
      assert ValidReviews(rs) <==> ValidReview(rs[0].fields) && ValidReviews(rs[1..]) by {
        if ValidReview(rs[0].fields) && ValidReviews(rs[1..]) {
          forall i | 0 <= i < |rs| ensures ValidReview(rs[i].fields) {
            if i > 0 { assert rs[i] == rs[1..][i - 1]; }
          }
        }
      }
      ReviewErrors(rs[0].fields, from) + rest
  }

  /** The paths a full-document validation (`save`) reports as failing. */
  function ProductErrors(p: Product): (errs: seq<Path>)
    ensures errs == [] <==> ValidProduct(p)
  {
    TextErrors("name", p.name) + TextErrors("description", p.description) +
    TextErrors("brand", p.brand) + (if p.price.Some? then [] else [Field("price")]) +
    TextErrors("category", p.category) + ReviewsErrors(p.reviews, 0)
  }

  function PatchTextErrors(name: string, v: Option<string>): seq<Path>
  {
    if v.None? then [] else TextErrors(name, v)
  }

  /** The paths the update validators report for an update body. */
  function PatchErrors(b: ProductBody): (errs: seq<Path>)
    ensures errs == [] <==> ValidPatch(b)
  {
    var reviewErrs := if b.reviews.None? then [] else ReviewsErrors(Embed(b.reviews.value, 0), 0);
    assert b.reviews.Some? ==> (reviewErrs == [] <==> forall i :: 0 <= i < |b.reviews.value| ==> ValidReview(b.reviews.value[i]));
    PatchTextErrors("name", b.name) + PatchTextErrors("description", b.description) +
    PatchTextErrors("brand", b.brand) + PatchTextErrors("category", b.category) + reviewErrs
  }

  // ---------------------------------------------------------------------
  // Properties of the schema

  /** A missing or empty required field is named among the failing paths,
      and a field that is fine is not. */
  lemma RequiredFieldsNamed(p: Product)
    ensures Field("name") in ProductErrors(p) <==> !RequiredText(p.name)
    ensures Field("description") in ProductErrors(p) <==> !RequiredText(p.description)
    ensures Field("brand") in ProductErrors(p) <==> !RequiredText(p.brand)
    ensures Field("price") in ProductErrors(p) <==> p.price.None?
    ensures Field("category") in ProductErrors(p) <==> !RequiredText(p.category)
  {
    var rv := ReviewsErrors(p.reviews, 0);
    assert forall k :: 0 <= k < |rv| ==> rv[k].ReviewField?;
  }

  /** `imageUrl` carries no validator: validity never depends on it. */
  lemma ImageUrlOptional(p: Product, url: Option<string>)
    ensures ValidProduct(p.(imageUrl := url)) <==> ValidProduct(p)
    ensures ValidProduct(p) ==> ValidProduct(p.(imageUrl := None))
  {
  }

  /** The rating bounds are inclusive: 1 and 5 pass, 0 and 6 fail, and so
      does a missing rating or comment. */
  lemma RatingBoundaries(comment: string)
    requires comment != ""
    ensures ValidReview(ReviewFields(Some(comment), Some(1.0)))
    ensures ValidReview(ReviewFields(Some(comment), Some(5.0)))
    ensures !ValidReview(ReviewFields(Some(comment), Some(0.0)))
    ensures !ValidReview(ReviewFields(Some(comment), Some(6.0)))
    ensures !ValidReview(ReviewFields(Some(comment), None))
    ensures !ValidReview(ReviewFields(None, Some(3.0)))
  {
  }

  /** One bad review makes the whole product invalid, and its path is reported. */
  lemma {:induction false} BadReviewInvalidatesProduct(p: Product, i: nat)
    requires i < |p.reviews| && !ValidReview(p.reviews[i].fields)
    ensures !ValidProduct(p)
    ensures ReviewField(i, "comment") in ProductErrors(p) || ReviewField(i, "rating") in ProductErrors(p)
  {
    ReviewsErrorsAt(p.reviews, 0, i);
    var front := TextErrors("name", p.name) + TextErrors("description", p.description) +
      TextErrors("brand", p.brand) + (if p.price.Some? then [] else [Field("price")]) +
      TextErrors("category", p.category);
    assert ProductErrors(p) == front + ReviewsErrors(p.reviews, 0);
  }

  /** The review at position `i` of `rs`, starting at `from`, contributes its
      own failing paths to the list. */
  lemma {:induction false} ReviewsErrorsAt(rs: seq<Review>, from: nat, i: nat)
    requires i < |rs| && !ValidReview(rs[i].fields)
    ensures ReviewField(from + i, "comment") in ReviewsErrors(rs, from) ||
            ReviewField(from + i, "rating") in ReviewsErrors(rs, from)
    decreases i
  {
    var head := ReviewErrors(rs[0].fields, from);
    var rest := ReviewsErrors(rs[1..], from + 1);
    assert ReviewsErrors(rs, from) == head + rest;
    if i == 0 {
      assert ReviewField(from, "comment") in head || ReviewField(from, "rating") in head;
    } else {
      assert rs[1..][i - 1] == rs[i];
      ReviewsErrorsAt(rs[1..], from + 1, i - 1);

    }
  }
}
