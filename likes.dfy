/**
 * The shopper's liked products: a set of product ids kept as a list, which
 * add, remove and toggle replace as a whole.
 */
module Likes {
  import opened Sequences
  import opened Products

  /** The ids `removeFromLikes(id)` keeps. */
  function Other(id: ProductId): ProductId -> bool {
    (x: ProductId) => x != id
  }

  /** `addToLikes(id)`: appended when absent, otherwise the list itself. */
  function WithLike(liked: seq<ProductId>, id: ProductId): (r: seq<ProductId>)
    ensures id in r
    ensures forall x :: x in r <==> x in liked || x == id
    ensures id in liked ==> r == liked
    ensures id !in liked ==> r == liked + [id]
  {
    if id !in liked then liked + [id] else liked
  }

  /** `removeFromLikes(id)`: every copy of `id` dropped, the other ids in their order. */
  function WithoutLike(liked: seq<ProductId>, id: ProductId): (r: seq<ProductId>)
    ensures id !in r
    ensures forall x :: x in r <==> x in liked && x != id
    ensures forall x :: multiset(r)[x] == if x == id then 0 else multiset(liked)[x]
    ensures IsSubsequence(r, liked)
  {
    FilterCounts(liked, Other(id));
    FilterIsSubsequence(liked, Other(id));
    Filter(liked, Other(id))
  }

  /** `toggleLike(id)`: removed when liked, appended otherwise. */
  function Toggled(liked: seq<ProductId>, id: ProductId): (r: seq<ProductId>)
    ensures id in r <==> id !in liked
    ensures forall x :: x != id ==> (x in r <==> x in liked)
  {
    if id in liked then WithoutLike(liked, id) else liked + [id]
  }

  /** Liking twice is liking once. */
  lemma WithLikeIdempotent(liked: seq<ProductId>, id: ProductId)
    ensures WithLike(WithLike(liked, id), id) == WithLike(liked, id)
  {
  }

  /** Removing an id that is not liked leaves the list as it was. */
  lemma WithoutAbsent(liked: seq<ProductId>, id: ProductId)
    requires id !in liked
    ensures WithoutLike(liked, id) == liked
  {
    forall i | 0 <= i < |liked| ensures Other(id)(liked[i]) {
      assert liked[i] in liked;
    }
    FilterKeepsAll(liked, Other(id));
  }

  /** Toggling an id that is not liked, and toggling it again, restores the list exactly. */
  lemma ToggleTwiceAbsent(liked: seq<ProductId>, id: ProductId)
    requires id !in liked
    ensures Toggled(Toggled(liked, id), id) == liked
  {
    FilterAppend(liked, [id], Other(id));
    FilterSingleton(id, Other(id));
    WithoutAbsent(liked, id);
    assert liked + [] == liked;
  }

  /** Toggling a liked id twice keeps it liked but moves it to the end. */
  lemma ToggleTwicePresent(liked: seq<ProductId>, id: ProductId)
    requires id in liked
    ensures Toggled(Toggled(liked, id), id) == WithoutLike(liked, id) + [id]
  {
  }

  /** Add, remove and toggle never introduce a duplicate id. */
  lemma UpdatesKeepNoDuplicates(liked: seq<ProductId>, id: ProductId)
    requires NoDuplicates(liked)
    ensures NoDuplicates(WithLike(liked, id))
    ensures NoDuplicates(WithoutLike(liked, id))
    ensures NoDuplicates(Toggled(liked, id))
  {
    if id !in liked {
      AppendFreshNoDuplicates(liked, id);
    }
    FilterNoDuplicates(liked, Other(id));
  }

  lemma AppendFreshNoDuplicates(liked: seq<ProductId>, id: ProductId)
    requires NoDuplicates(liked) && id !in liked
    ensures NoDuplicates(liked + [id])
  {
    var r := liked + [id];
    forall i, j | 0 <= i < j < |r| ensures r[i] != r[j] {
      if j == |liked| {
        assert r[i] == liked[i] && liked[i] in liked;
      }
    }
  }

  /** The likes store: `likedProducts` and the updates that replace it. */
  class LikesStore {
    var likedProducts: seq<ProductId>

    ghost predicate Valid()
      reads this
    {
      NoDuplicates(likedProducts)
    }

    constructor ()
      ensures likedProducts == [] && Valid()
    {
      likedProducts := [];
    }

    /** `isLiked`. */
    function IsLiked(productId: ProductId): (r: bool)
      reads this
      ensures r <==> exists i :: 0 <= i < |likedProducts| && likedProducts[i] == productId
    {
      productId in likedProducts
    }

    method AddToLikes(productId: ProductId)
      requires Valid()
      modifies this
      ensures likedProducts == WithLike(old(likedProducts), productId)
      ensures Valid() && IsLiked(productId)
    {
      UpdatesKeepNoDuplicates(likedProducts, productId);
      if productId !in likedProducts {
        likedProducts := likedProducts + [productId];
      }
    }

    method RemoveFromLikes(productId: ProductId)
      requires Valid()
      modifies this
      ensures likedProducts == WithoutLike(old(likedProducts), productId)
      ensures Valid() && !IsLiked(productId)
    {
      UpdatesKeepNoDuplicates(likedProducts, productId);
      likedProducts := Filter(likedProducts, Other(productId));
    }

    method ToggleLike(productId: ProductId)
      requires Valid()
      modifies this
      ensures likedProducts == Toggled(old(likedProducts), productId)
      ensures Valid() && IsLiked(productId) == !old(IsLiked(productId))
    {
      UpdatesKeepNoDuplicates(likedProducts, productId);
      if productId in likedProducts {
        likedProducts := Filter(likedProducts, Other(productId));
      } else {
        likedProducts := likedProducts + [productId];
      }
    }
  }
}
