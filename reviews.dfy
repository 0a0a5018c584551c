/**
 * Product reviews by signed-in customers: one per product and customer, flagged as a
 * verified purchase when the customer has a delivered order containing the product, and
 * held for approval whenever written or rewritten. Only the author may change or delete one.
 */
module ReviewApi {
  import opened Base
  import opened CartItems
  import opened Orders

  /** One row of reviews. */
  datatype Review = Review(
    id: int, productId: int, userId: int, rating: int,
    title: Option<string>, comment: Option<string>,
    isVerifiedPurchase: bool, isApproved: bool)

  /** One review per (product, user): the table's unique index, which store checks. */
  ghost predicate OnePerProductAndUser(reviews: seq<Review>)
  {
    forall i, j :: 0 <= i < j < |reviews| ==>
      reviews[i].productId != reviews[j].productId || reviews[i].userId != reviews[j].userId
  }

  class ReviewTable {
    var reviews: seq<Review>   // in id order
    var nextId: int

    ghost predicate Valid()
      reads this
    {
      0 < nextId && OnePerProductAndUser(reviews) &&
      (forall i :: 0 <= i < |reviews| ==> 0 < reviews[i].id < nextId) &&
      (forall i, j :: 0 <= i < j < |reviews| ==> reviews[i].id < reviews[j].id)
    }

    constructor ()
      ensures reviews == [] && Valid()
    {
      reviews := [];
      nextId := 1;
    }
  }

  /** The review with this id (route model binding). */
  function FindReview(reviews: seq<Review>, id: int): (r: Option<nat>)
    ensures r.Some? ==> r.value < |reviews| && reviews[r.value].id == id
    ensures r.None? ==> forall j :: 0 <= j < |reviews| ==> reviews[j].id != id
  {
    if |reviews| == 0 then None
    else if reviews[0].id == id then Some(0)
    else match FindReview(reviews[1..], id)
      case None => None
      case Some(j) => Some(j + 1)
  }

  /** The user has already reviewed the product. */
  predicate HasReviewed(reviews: seq<Review>, productId: int, userId: int)
  {
    exists i :: 0 <= i < |reviews| && reviews[i].productId == productId && reviews[i].userId == userId
  }

  /** An order line of this product (product lines only carry a product id). */
  predicate ContainsProduct(o: Order, productId: int)
  {
    exists k :: 0 <= k < |o.items| && o.items[k].productId == Some(productId)
  }

  /** The purchase check: one of the user's orders is delivered and contains the product. */
  function HasPurchased(orders: seq<Order>, userId: int, productId: int): (b: bool)
    ensures b <==> exists j :: 0 <= j < |orders| && orders[j].userId == userId &&
                              orders[j].status == Delivered && ContainsProduct(orders[j], productId)
  {
    if |orders| == 0 then false
    else (orders[0].userId == userId && orders[0].status == Delivered && ContainsProduct(orders[0], productId)) ||
         HasPurchased(orders[1..], userId, productId)
  }

  /** The validator of store and update: a rating from 1 to 5 and a title of at most 255 characters. */
  predicate ReviewValid(rating: Option<int>, title: Option<string>)
  {
    rating.Some? && 1 <= rating.value <= 5 && (title.None? || |title.value| <= 255)
  }

  /**
   * store: 404 when the slug names no product; 422 for a body the validator refuses; 400
   * when the user already reviewed the product; otherwise a new unapproved review whose
   * verified-purchase flag says whether a delivered order of the user holds the product.
   */
  method Store(table: ReviewTable, orders: seq<Order>, userId: int, productId: Option<int>,
               rating: Option<int>, title: Option<string>, comment: Option<string>)
    returns (r: Result<Review>)
    requires table.Valid()
    modifies table
    ensures table.Valid()
    ensures r.Err? ==> table.reviews == old(table.reviews) && table.nextId == old(table.nextId)
    ensures productId.None? ==> r == Err(NotFound)
    ensures productId.Some? && !ReviewValid(rating, title) ==> r == Err(Unprocessable("Validation failed"))
    ensures productId.Some? && ReviewValid(rating, title) && HasReviewed(old(table.reviews), productId.value, userId) ==>
              r == Err(BadRequest("You have already reviewed this product"))
    ensures r.Ok? <==> productId.Some? && ReviewValid(rating, title) && !HasReviewed(old(table.reviews), productId.value, userId)
    ensures r.Ok? ==>
              r.value == Review(old(table.nextId), productId.value, userId, rating.value, title, comment,
                                HasPurchased(orders, userId, productId.value), false) &&
              table.reviews == old(table.reviews) + [r.value] && table.nextId == old(table.nextId) + 1
    ensures r.Ok? ==> !r.value.isApproved && 1 <= r.value.rating <= 5
  {
    if productId.None? {
      return Err(NotFound);
    }
    if !ReviewValid(rating, title) {
      return Err(Unprocessable("Validation failed"));
    }
    if HasReviewed(table.reviews, productId.value, userId) {
      return Err(BadRequest("You have already reviewed this product"));
    }
    var rv := Review(table.nextId, productId.value, userId, rating.value, title, comment,
                     HasPurchased(orders, userId, productId.value), false);
    table.reviews := table.reviews + [rv];
    table.nextId := table.nextId + 1;
    return Ok(rv);
  }

  /**
   * update: 404 for an unknown review; 403 unless the user wrote it; 422 for a body the
   * validator refuses; otherwise rating, title and comment are replaced (an absent title
   * or comment becomes null) and the review goes back to unapproved.
   */
  method Update(table: ReviewTable, userId: int, reviewId: int,
                rating: Option<int>, title: Option<string>, comment: Option<string>)
    returns (r: Result<Review>)
    requires table.Valid()
    modifies table
    ensures table.Valid() && table.nextId == old(table.nextId)
    ensures r.Err? ==> table.reviews == old(table.reviews)
    ensures FindReview(old(table.reviews), reviewId).None? ==> r == Err(NotFound)
    ensures FindReview(old(table.reviews), reviewId).Some? ==>
              var k := FindReview(old(table.reviews), reviewId).value;
              var rv := old(table.reviews)[k];
              (rv.userId != userId ==> r == Err(Forbidden)) &&
              (rv.userId == userId && !ReviewValid(rating, title) ==> r == Err(Unprocessable("Validation failed"))) &&
              (rv.userId == userId && ReviewValid(rating, title) ==>
                 var rv' := rv.(rating := rating.value, title := title, comment := comment, isApproved := false);
                 r == Ok(rv') && table.reviews == old(table.reviews)[k := rv'])
    ensures r.Ok? ==> r.value.userId == userId && !r.value.isApproved
  {
    var k := FindReview(table.reviews, reviewId);
    if k.None? {
      return Err(NotFound);
    }
    var rv := table.reviews[k.value];
    if rv.userId != userId {
      return Err(Forbidden);
    }
    if !ReviewValid(rating, title) {
      return Err(Unprocessable("Validation failed"));
    }
    var rv' := rv.(rating := rating.value, title := title, comment := comment, isApproved := false);
    table.reviews := table.reviews[k.value := rv'];
    return Ok(rv');
  }

  /** destroy: 404 for an unknown review; 403 unless the user wrote it; otherwise it is deleted. */
  method Destroy(table: ReviewTable, userId: int, reviewId: int) returns (r: Result<Review>)
    requires table.Valid()
    modifies table
    ensures table.Valid() && table.nextId == old(table.nextId)
    ensures r.Err? ==> table.reviews == old(table.reviews)
    ensures FindReview(old(table.reviews), reviewId).None? ==> r == Err(NotFound)
    ensures FindReview(old(table.reviews), reviewId).Some? ==>
              var k := FindReview(old(table.reviews), reviewId).value;
              (old(table.reviews)[k].userId != userId ==> r == Err(Forbidden)) &&
              (old(table.reviews)[k].userId == userId ==>
                 r == Ok(old(table.reviews)[k]) && table.reviews == old(table.reviews)[..k] + old(table.reviews)[k + 1..])
    ensures r.Ok? ==> r.value.userId == userId && FindReview(table.reviews, reviewId).None?
  {
    var k := FindReview(table.reviews, reviewId);
    if k.None? {
      return Err(NotFound);
    }
    var rv := table.reviews[k.value];
    if rv.userId != userId {
      return Err(Forbidden);
    }
    RemovalKeepsValid(table.reviews, k.value, table.nextId);
    table.reviews := table.reviews[..k.value] + table.reviews[k.value + 1..];
    return Ok(rv);
  }

  /** Deleting one review keeps the table's invariant and leaves no review with its id. */
  lemma RemovalKeepsValid(reviews: seq<Review>, k: nat, nextId: int)
    requires k < |reviews| && OnePerProductAndUser(reviews)
    requires forall i :: 0 <= i < |reviews| ==> 0 < reviews[i].id < nextId
    requires forall i, j :: 0 <= i < j < |reviews| ==> reviews[i].id < reviews[j].id
    ensures var r := reviews[..k] + reviews[k + 1..];
            OnePerProductAndUser(r) &&
            (forall i :: 0 <= i < |r| ==> 0 < r[i].id < nextId) &&
            (forall i, j :: 0 <= i < j < |r| ==> r[i].id < r[j].id) &&
            FindReview(r, reviews[k].id).None?
  {
    var r := reviews[..k] + reviews[k + 1..];
    assert forall i :: 0 <= i < |r| ==> r[i] == (if i < k then reviews[i] else reviews[i + 1]);
  }

  /**
   * The duplicate check of store is what keeps the unique (product, user) index: appending a
   * review for a pair nobody has reviewed keeps every pair distinct, and appending one for a
   * pair already present breaks it.
   */
  lemma AppendKeepsUniqueIff(reviews: seq<Review>, rv: Review)
    requires OnePerProductAndUser(reviews)
    ensures OnePerProductAndUser(reviews + [rv]) <==> !HasReviewed(reviews, rv.productId, rv.userId)
  {
    var r := reviews + [rv];
    if HasReviewed(reviews, rv.productId, rv.userId) {
      var i :| 0 <= i < |reviews| && reviews[i].productId == rv.productId && reviews[i].userId == rv.userId;
      assert r[i] == reviews[i] && r[|reviews|] == rv;
    } else {
      forall i, j | 0 <= i < j < |r|
        ensures r[i].productId != r[j].productId || r[i].userId != r[j].userId
      {
        if j == |reviews| {
          assert r[i] == reviews[i];
        } else {
          assert r[i] == reviews[i] && r[j] == reviews[j];
        }
      }
    }
  }
}
