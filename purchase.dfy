/** The premium-post purchase route (src/app/api/purchase/route.ts): POST buys a premium post for the
    signed-in user, recording the purchase and moving the post's purchase counter and revenue;
    GET tells whether the user has bought a post. The purchase table is keyed by (user, post), its
    unique key. Prices are reals; floating-point rounding is not modelled. */
module Purchase {
  import opened Common

  /** The post columns the route selects, with its two counters. */
  datatype PremiumPost = PremiumPost(isPremium: bool, price: Option<real>, authorId: string,
                                     purchases: int, revenue: real)

  datatype PurchaseStatus = COMPLETED
  datatype PurchaseRecord = PurchaseRecord(userId: string, postId: string, amount: real, status: PurchaseStatus)

  /** (user id, post id). */
  type Key = (string, string)

  /** `post.isPremium && post.price`: a premium post with a non-zero price can be bought. */
  predicate ForSale(p: PremiumPost)
  {
    p.isPremium && p.price.Some? && p.price.value != 0.0
  }

  /** The price a post's purchases are charged, 0 for a post that is not for sale. */
  function PriceOf(p: PremiumPost): (r: real)
    ensures ForSale(p) ==> r == p.price.value
    ensures r != 0.0 <==> ForSale(p)
  {
    if ForSale(p) then p.price.value else 0.0
  }

  ghost function BuyersOf(purchases: map<Key, PurchaseRecord>, postId: string): set<Key>
  {
    set k | k in purchases && k.1 == postId
  }

  /** Every purchase is of a stored post, for its price, and matches its key; each post's counter
      is its number of buyers and its revenue that number times its price. */
  ghost predicate Consistent(posts: map<string, PremiumPost>, purchases: map<Key, PurchaseRecord>)
  {
    (forall k :: k in purchases ==>
       k.1 in posts && purchases[k] == PurchaseRecord(k.0, k.1, PriceOf(posts[k.1]), COMPLETED))
    && (forall id :: id in posts ==>
          posts[id].purchases == |BuyersOf(purchases, id)|
          && posts[id].revenue == posts[id].purchases as real * PriceOf(posts[id]))
  }

  /** The post after one more sale: `purchases: { increment: 1 }, revenue: { increment: price }`. */
  function Sold(p: PremiumPost): (r: PremiumPost)
    requires ForSale(p)
    ensures r.purchases == p.purchases + 1 && r.revenue == p.revenue + p.price.value
    ensures ForSale(r) && PriceOf(r) == PriceOf(p)
  {
    p.(purchases := p.purchases + 1, revenue := p.revenue + p.price.value)
  }

  /** After a sale the counters of one post still match the purchase table. */
  lemma SaleKeepsCounter(posts: map<string, PremiumPost>, purchases: map<Key, PurchaseRecord>, k: Key, id: string)
    requires Consistent(posts, purchases)
    requires k.1 in posts && ForSale(posts[k.1]) && k !in purchases && id in posts
    ensures var posts', purchases' := posts[k.1 := Sold(posts[k.1])],
                                      purchases[k := PurchaseRecord(k.0, k.1, posts[k.1].price.value, COMPLETED)];
            posts'[id].purchases == |BuyersOf(purchases', id)|
            && posts'[id].revenue == posts'[id].purchases as real * PriceOf(posts'[id])
  {
    var rec := PurchaseRecord(k.0, k.1, posts[k.1].price.value, COMPLETED);
    BuyersAfterSale(purchases, k, rec, id);
    if id == k.1 {
      var n, price := posts[id].purchases, posts[id].price.value;
      assert (n + 1) as real * price == n as real * price + price;
    }
  }

  /** A new purchase key adds one buyer to its own post and none to any other. */
  lemma BuyersAfterSale(purchases: map<Key, PurchaseRecord>, k: Key, rec: PurchaseRecord, id: string)
    requires k !in purchases
    ensures |BuyersOf(purchases[k := rec], id)|
            == |BuyersOf(purchases, id)| + (if id == k.1 then 1 else 0)
  {
    var before, after := BuyersOf(purchases, id), BuyersOf(purchases[k := rec], id);
    if id == k.1 {
      assert after == before + {k};
      assert k !in before;
    } else {
      assert after == before;
    }
  }

  /** A sale keeps the counters consistent with the purchase table. */
  lemma SaleKeepsConsistent(posts: map<string, PremiumPost>, purchases: map<Key, PurchaseRecord>, k: Key)
    requires Consistent(posts, purchases)
    requires k.1 in posts && ForSale(posts[k.1]) && k !in purchases
    ensures Consistent(posts[k.1 := Sold(posts[k.1])],
                       purchases[k := PurchaseRecord(k.0, k.1, posts[k.1].price.value, COMPLETED)])
  {
    forall id | id in posts {
      SaleKeepsCounter(posts, purchases, k, id);
    }
  }

  class PurchaseStore {
    var posts: map<string, PremiumPost>
    var purchases: map<Key, PurchaseRecord>

    ghost predicate Valid()
      reads this
    {
      Consistent(posts, purchases)
    }

    /** Posts that have not been sold yet, and no purchases. */
    constructor (posts: map<string, PremiumPost>)
      requires forall id :: id in posts ==> posts[id].purchases == 0 && posts[id].revenue == 0.0
      ensures Valid()
      ensures this.posts == posts && purchases == map[]
    {
      this.posts := posts;
      purchases := map[];
    }
  }

  /** POST: 401 without a session, 400 without a post id, 404 for an unknown post, 400 for a post
      that is not premium or has no price, 400 "Already purchased" when the pair exists (checked
      before authorship), 400 for the post's own author; otherwise a COMPLETED purchase of the
      price is recorded and the post's counter and revenue move up by one sale. Failures change
      nothing. */
  method PurchasePost(store: PurchaseStore, session: Option<Session>, postId: Option<string>)
    returns (reply: Reply<PurchaseRecord>)
    requires store.Valid()
    modifies store
    ensures store.Valid()
    ensures reply.Fail? ==> store.posts == old(store.posts) && store.purchases == old(store.purchases)
    ensures SessionUser(session).None? ==> reply == Fail(401, "Unauthorized")
    ensures SessionUser(session).Some? && !Given(postId) ==> reply == Fail(400, "Post ID is required")
    ensures SessionUser(session).Some? && Given(postId) ==>
              var me, id := SessionUser(session).value, postId.value;
              if id !in old(store.posts) then reply == Fail(404, "Post not found")
              else if !ForSale(old(store.posts)[id]) then reply == Fail(400, "Post is not premium")
              else if (me, id) in old(store.purchases) then reply == Fail(400, "Already purchased")
              else if old(store.posts)[id].authorId == me then reply == Fail(400, "Cannot purchase your own post")
              else reply == Ok(PurchaseRecord(me, id, old(store.posts)[id].price.value, COMPLETED))
                   && store.purchases == old(store.purchases)[(me, id) := reply.body]
                   && store.posts == old(store.posts)[id := Sold(old(store.posts)[id])]
  {
    var me := SessionUser(session);
    if me.None? {
      return Fail(401, "Unauthorized");
    }
    if !Given(postId) {
      return Fail(400, "Post ID is required");
    }
    var id := postId.value;
    if id !in store.posts {
      return Fail(404, "Post not found");
    }
    var post := store.posts[id];
    if !ForSale(post) {
      return Fail(400, "Post is not premium");
    }
    if (me.value, id) in store.purchases {
      return Fail(400, "Already purchased");
    }
    if post.authorId == me.value {
      return Fail(400, "Cannot purchase your own post");
    }
    SaleKeepsConsistent(store.posts, store.purchases, (me.value, id));
    var purchase := PurchaseRecord(me.value, id, post.price.value, COMPLETED);
    store.purchases := store.purchases[(me.value, id) := purchase];
    store.posts := store.posts[id := Sold(post)];
    reply := Ok(purchase);
  }

  /** The same user buying the same post twice: when the first purchase succeeds the second is
      refused as "Already purchased", so the two calls together record one purchase and one sale. */
  method PurchaseTwice(store: PurchaseStore, session: Option<Session>, postId: Option<string>)
    returns (first: Reply<PurchaseRecord>, second: Reply<PurchaseRecord>)
    requires store.Valid()
    modifies store
    ensures store.Valid()
    ensures first.Ok? ==> second == Fail(400, "Already purchased")
    ensures first.Ok? ==> SessionUser(session).Some? && Given(postId) && postId.value in old(store.posts)
                          && ForSale(old(store.posts)[postId.value])
    ensures first.Ok? ==>
              var me, id := SessionUser(session).value, postId.value;
              store.purchases == old(store.purchases)[(me, id) := first.body]
              && store.posts == old(store.posts)[id := Sold(old(store.posts)[id])]
              && store.posts[id].purchases == old(store.posts)[id].purchases + 1
    ensures first.Fail? ==> store.posts == old(store.posts) && store.purchases == old(store.purchases)
  {
    first := PurchasePost(store, session, postId);
    second := PurchasePost(store, session, postId);
  }

  /** GET: 401 without a session, 400 without a post id; otherwise whether the user bought the post. */
  method HasAccess(store: PurchaseStore, session: Option<Session>, postId: Option<string>) returns (reply: Reply<bool>)
    ensures SessionUser(session).None? ==> reply == Fail(401, "Unauthorized")
    ensures SessionUser(session).Some? && !Given(postId) ==> reply == Fail(400, "Post ID is required")
    ensures SessionUser(session).Some? && Given(postId) ==>
              reply.Ok? && (reply.body <==> (SessionUser(session).value, postId.value) in store.purchases)
  {
    var me := SessionUser(session);
    if me.None? {
      return Fail(401, "Unauthorized");
    }
    if !Given(postId) {
      return Fail(400, "Post ID is required");
    }
    reply := Ok((me.value, postId.value) in store.purchases);
  }
}
