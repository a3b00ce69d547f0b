/**
 * The cart store: the cart updaters (`addToCart`, `removeFromCart`,
 * `clearCart`) as functions over the previous cart, and the provider that
 * holds the cart and mirrors it into per-user browser storage.
 */
module Cart {
  import opened Wrappers
  import opened Json
  import opened Auth

  datatype CartItem = CartItem(
    productId: string,
    name: string,
    image: string,
    quantity: int,
    options: Option<Options>)

  /** What two entries must share to be merged: the product id and the serialised options. */
  function Key(i: CartItem): (string, Option<Options>) {
    (i.productId, Serialized(i.options))
  }

  predicate SameKey(a: CartItem, b: CartItem) {
    Key(a) == Key(b)
  }

  /** The cart invariant: no two entries share a merge key. */
  predicate Unique(cart: seq<CartItem>) {
    forall i, j :: 0 <= i < j < |cart| ==> !SameKey(cart[i], cart[j])
  }

  /** Sum of the quantities in the cart. */
  function Total(cart: seq<CartItem>): int {
    if cart == [] then 0 else cart[0].quantity + Total(cart[1..])
  }

  /** Number of entries that share `item`'s merge key. */
  function Count(cart: seq<CartItem>, item: CartItem): nat {
    if cart == [] then 0 else (if SameKey(cart[0], item) then 1 else 0) + Count(cart[1..], item)
  }

  /** `prev.find(...)` succeeds. */
  predicate HasMatch(cart: seq<CartItem>, item: CartItem) {
    exists k :: 0 <= k < |cart| && SameKey(cart[k], item)
  }

  /** `prev.map(...)`: every entry with `item`'s key gets `item.quantity` more, the others are kept. */
  function Bumped(cart: seq<CartItem>, item: CartItem): (r: seq<CartItem>)
    ensures |r| == |cart|
    ensures forall k :: 0 <= k < |cart| ==>
      r[k] == if SameKey(cart[k], item) then cart[k].(quantity := cart[k].quantity + item.quantity) else cart[k]
  {
    if cart == [] then []
    else
      var head := if SameKey(cart[0], item) then cart[0].(quantity := cart[0].quantity + item.quantity) else cart[0];
      [head] + Bumped(cart[1..], item)
  }

  /** The `addToCart` updater: merge into a matching entry, else append. */
  function Added(cart: seq<CartItem>, item: CartItem): (r: seq<CartItem>)
    ensures |r| == if HasMatch(cart, item) then |cart| else |cart| + 1
    ensures HasMatch(r, item)
    ensures forall k :: 0 <= k < |cart| && !SameKey(cart[k], item) ==> r[k] == cart[k]
  {
    assert !HasMatch(cart, item) ==> SameKey((cart + [item])[|cart|], item);
    if HasMatch(cart, item) then Bumped(cart, item) else cart + [item]
  }

  /** The `removeFromCart` updater: keep the entries whose product id differs, options ignored. */
  function Removed(cart: seq<CartItem>, productId: string): (r: seq<CartItem>)
    ensures forall k :: 0 <= k < |r| ==> r[k].productId != productId
    ensures forall x :: multiset(r)[x] == if x.productId == productId then 0 else multiset(cart)[x]
  {
    if cart == [] then []
    else
      assert cart == [cart[0]] + cart[1..];
      if cart[0].productId == productId then Removed(cart[1..], productId)
      else [cart[0]] + Removed(cart[1..], productId)
  }

  // ---------------------------------------------------------------- addToCart

  /** With a matching entry, the cart keeps its length and exactly the matching entries gain `item.quantity`. */
  lemma AddMerges(cart: seq<CartItem>, item: CartItem, j: nat)
    requires j < |cart| && SameKey(cart[j], item)
    ensures |Added(cart, item)| == |cart|
    ensures Added(cart, item)[j].quantity == cart[j].quantity + item.quantity
    ensures Added(cart, item)[j].(quantity := cart[j].quantity) == cart[j]
  {
  }

  /** Without a matching entry, the item is appended and all earlier entries stay as they were. */
  lemma AddAppends(cart: seq<CartItem>, item: CartItem)
    requires forall k :: 0 <= k < |cart| ==> !SameKey(cart[k], item)
    ensures Added(cart, item) == cart + [item]
  {
  }

  /** Entries whose key differs from the item's are untouched, and stay at their positions. */
  lemma AddKeepsOthers(cart: seq<CartItem>, item: CartItem, k: nat)
    requires k < |cart| && !SameKey(cart[k], item)
    ensures k < |Added(cart, item)| && Added(cart, item)[k] == cart[k]
  {
  }

  /** Every entry keeps its merge key through the `map`. */
  lemma BumpedKeys(cart: seq<CartItem>, item: CartItem)
    ensures forall k :: 0 <= k < |cart| ==> Key(Bumped(cart, item)[k]) == Key(cart[k])
  {
  }

  /** `addToCart` preserves the invariant that no two entries share a merge key. */
  lemma AddPreservesUnique(cart: seq<CartItem>, item: CartItem)
    requires Unique(cart)
    ensures Unique(Added(cart, item))
  {
    if HasMatch(cart, item) {
      BumpedKeys(cart, item);
    } else {
      var r := cart + [item];
      forall i, j | 0 <= i < j < |r| ensures !SameKey(r[i], r[j]) {
        if j == |cart| {
          assert !SameKey(cart[i], item);
        }
      }
    }
  }

  /** Under the invariant, at most one entry shares the item's key. */
  lemma {:induction false} UniqueCountAtMostOne(cart: seq<CartItem>, item: CartItem)
    requires Unique(cart)
    ensures Count(cart, item) <= 1
    ensures Count(cart, item) == 1 <==> HasMatch(cart, item)
  {
    if cart != [] {
      var tail := cart[1..];
      assert Unique(tail) by {
        forall i, j | 0 <= i < j < |tail| ensures !SameKey(tail[i], tail[j]) {
          assert tail[i] == cart[i + 1] && tail[j] == cart[j + 1];
        }
      }
      UniqueCountAtMostOne(tail, item);
      if HasMatch(cart, item) && !SameKey(cart[0], item) {
        var k :| 0 <= k < |cart| && SameKey(cart[k], item);
        assert SameKey(tail[k - 1], item);
      }
      if HasMatch(tail, item) {
        var k :| 0 <= k < |tail| && SameKey(tail[k], item);
        assert SameKey(cart[k + 1], item);
      }
    }
  }

  /** Merging adds `item.quantity` once for every entry that shares its key. */
  lemma {:induction false} BumpedTotal(cart: seq<CartItem>, item: CartItem)
    ensures Total(Bumped(cart, item)) == Total(cart) + item.quantity * Count(cart, item)
  {
    if cart != [] {
      BumpedTotal(cart[1..], item);
      assert Bumped(cart, item)[1..] == Bumped(cart[1..], item);
    }
  }

  lemma {:induction false} TotalAppend(cart: seq<CartItem>, item: CartItem)
    ensures Total(cart + [item]) == Total(cart) + item.quantity
  {
    if cart != [] {
      assert (cart + [item])[1..] == cart[1..] + [item];
      TotalAppend(cart[1..], item);
    }
  }

  /** While the invariant holds, `addToCart` raises the total quantity by exactly `item.quantity`. */
  lemma AddTotal(cart: seq<CartItem>, item: CartItem)
    requires Unique(cart)
    ensures Total(Added(cart, item)) == Total(cart) + item.quantity
  {
    UniqueCountAtMostOne(cart, item);
    if HasMatch(cart, item) {
      BumpedTotal(cart, item);
    } else {
      TotalAppend(cart, item);
    }
  }

  /** Adding the same configuration twice to an empty cart gives one entry with the doubled quantity. */
  lemma AddTwiceMerges(item: CartItem)
    ensures Added(Added([], item), item) == [item.(quantity := 2 * item.quantity)]
  {
    assert Added([], item) == [item];
    assert SameKey(item, item);
    assert HasMatch([item], item);
  }

  /** Same product id with different serialised options gives two distinct entries. */
  lemma DifferentOptionsTwoEntries(a: CartItem, b: CartItem)
    requires a.productId == b.productId && Serialized(a.options) != Serialized(b.options)
    ensures Added(Added([], a), b) == [a, b]
  {
    assert Added([], a) == [a];
    assert !HasMatch([a], b) by {
      assert !SameKey(a, b);
    }
  }

  // ----------------------------------------------------------- removeFromCart

  /** Removal distributes over concatenation, so the kept entries stay in their order. */
  lemma {:induction false} RemovedAppend(a: seq<CartItem>, b: seq<CartItem>, productId: string)
    ensures Removed(a + b, productId) == Removed(a, productId) + Removed(b, productId)
  {
    if a == [] {
      assert a + b == b;
    } else {
      assert (a + b)[0] == a[0];
      assert (a + b)[1..] == a[1..] + b;
      RemovedAppend(a[1..], b, productId);
    }
  }

  /** A cart without that product id is left as it is. */
  lemma {:induction false} RemovedNoop(cart: seq<CartItem>, productId: string)
    requires forall k :: 0 <= k < |cart| ==> cart[k].productId != productId
    ensures Removed(cart, productId) == cart
  {
    if cart != [] {
      RemovedNoop(cart[1..], productId);
    }
  }

  /** Removing twice is removing once. */
  lemma RemoveIdempotent(cart: seq<CartItem>, productId: string)
    ensures Removed(Removed(cart, productId), productId) == Removed(cart, productId)
  {
    RemovedNoop(Removed(cart, productId), productId);
  }

  /** Every entry removal keeps was already in the cart. */
  lemma RemovedKeepsMembers(cart: seq<CartItem>, productId: string, x: CartItem)
    requires x in Removed(cart, productId)
    ensures x in cart
  {
    assert x in multiset(Removed(cart, productId));
  }

  lemma UniqueTail(cart: seq<CartItem>)
    requires Unique(cart) && cart != []
    ensures Unique(cart[1..])
    ensures forall x :: x in cart[1..] ==> !SameKey(cart[0], x)
  {
    var tail := cart[1..];
    forall i, j | 0 <= i < j < |tail| ensures !SameKey(tail[i], tail[j]) {
      assert tail[i] == cart[i + 1] && tail[j] == cart[j + 1];
    }
    forall x | x in tail ensures !SameKey(cart[0], x) {
      var m :| 0 <= m < |tail| && tail[m] == x;
      assert cart[m + 1] == x;
    }
  }

  lemma UniqueCons(head: CartItem, rest: seq<CartItem>)
    requires Unique(rest)
    requires forall x :: x in rest ==> !SameKey(head, x)
    ensures Unique([head] + rest)
  {
    var r := [head] + rest;
    forall i, j | 0 <= i < j < |r| ensures !SameKey(r[i], r[j]) {
      assert r[j] == rest[j - 1];
      if i > 0 {
        assert r[i] == rest[i - 1];
      }
    }
  }

  /** Removal keeps the invariant: what is left is a subsequence of a duplicate-free cart. */
  lemma {:induction false} RemovePreservesUnique(cart: seq<CartItem>, productId: string)
    requires Unique(cart)
    ensures Unique(Removed(cart, productId))
  {
    if cart != [] {
      var tail := cart[1..];
      UniqueTail(cart);
      RemovePreservesUnique(tail, productId);
      if cart[0].productId != productId {
        var rest := Removed(tail, productId);
        forall x | x in rest ensures !SameKey(cart[0], x) {
          RemovedKeepsMembers(tail, productId, x);
        }
        UniqueCons(cart[0], rest);
      }
    }
  }

  // ------------------------------------------------------------- persistence

  /** The browser-storage slot of a signed-in user. */
  function SlotKey(email: string): string {
    "leo_cart_" + email
  }

  /** An entry as it comes back from its JSON text: undefined-valued option keys are gone. */
  function RoundTrip(item: CartItem): (r: CartItem)
    ensures Key(r) == Key(item)
    ensures r.productId == item.productId && r.quantity == item.quantity
    ensures Serialized(r.options) == r.options
  {
    SerializedIdempotent(item.options);
    item.(options := Serialized(item.options))
  }

  /** The cart as `JSON.parse(JSON.stringify(cart))` gives it back. */
  function Stored(cart: seq<CartItem>): (r: seq<CartItem>)
    ensures |r| == |cart|
    ensures forall k :: 0 <= k < |cart| ==> r[k] == RoundTrip(cart[k])
    ensures forall k :: 0 <= k < |cart| ==>
      Key(r[k]) == Key(cart[k]) && r[k].quantity == cart[k].quantity && Serialized(r[k].options) == r[k].options
  {
    seq(|cart|, k requires 0 <= k < |cart| => RoundTrip(cart[k]))
  }

  /** A cart read back from storage is written back unchanged: storing is idempotent. */
  lemma StoredIdempotent(cart: seq<CartItem>)
    ensures Stored(Stored(cart)) == Stored(cart)
  {
    forall k | 0 <= k < |cart| ensures Stored(Stored(cart))[k] == Stored(cart)[k] {
      assert Stored(cart)[k].options == Serialized(cart[k].options);
    }
  }

  /** Different emails have different slots. */
  lemma SlotKeyInjective(a: string, b: string)
    requires SlotKey(a) == SlotKey(b)
    ensures a == b
  {
    assert a == SlotKey(a)[9..] && b == SlotKey(b)[9..];
  }

  /** Storing a cart keeps every merge key, so a stored duplicate-free cart loads duplicate-free. */
  lemma StoredUnique(cart: seq<CartItem>)
    requires Unique(cart)
    ensures Unique(Stored(cart))
  {
    forall i, j | 0 <= i < j < |cart| ensures !SameKey(Stored(cart)[i], Stored(cart)[j]) {
      assert Key(Stored(cart)[i]) == Key(cart[i]) && Key(Stored(cart)[j]) == Key(cart[j]);
    }
  }

  /** The load effect: the stored cart of the signed-in user, empty when absent or signed out. */
  function Loaded(session: Session, storage: map<string, seq<CartItem>>): (r: seq<CartItem>)
    ensures SignedInEmail(session).None? ==> r == []
    ensures SignedInEmail(session).Some? && SlotKey(SignedInEmail(session).value) !in storage ==> r == []
    ensures SignedInEmail(session).Some? && SlotKey(SignedInEmail(session).value) in storage ==>
      r == storage[SlotKey(SignedInEmail(session).value)]
  {
    match SignedInEmail(session)
    case None => []
    case Some(email) => if SlotKey(email) in storage then storage[SlotKey(email)] else []
  }

  /**
   * The storage after the persist effect: the signed-in user's slot holds the
   * stored cart, so loading it gives the cart back, and every other user's
   * slot is left as it was. Without a signed-in email nothing is written.
   */
  function Persisted(session: Session, storage: map<string, seq<CartItem>>, cart: seq<CartItem>): (m: map<string, seq<CartItem>>)
    ensures SignedInEmail(session).None? ==> m == storage
    ensures SignedInEmail(session).Some? ==> Loaded(session, m) == Stored(cart)
    ensures forall other: Session :: SignedInEmail(other).Some? && SignedInEmail(other) != SignedInEmail(session) ==>
      Loaded(other, m) == Loaded(other, storage)
  {
    match SignedInEmail(session)
    case None => storage
    case Some(email) =>
      assert forall other: Session :: SignedInEmail(other).Some? && SignedInEmail(other) != SignedInEmail(session) ==>
        SlotKey(SignedInEmail(other).value) != SlotKey(email) by {
        forall other: Session | SignedInEmail(other).Some? && SlotKey(SignedInEmail(other).value) == SlotKey(email)
          ensures SignedInEmail(other) == SignedInEmail(session) {
          SlotKeyInjective(SignedInEmail(other).value, email);
        }
      }
      storage[SlotKey(email) := Stored(cart)]
  }

  /** Every stored cart is duplicate-free. */
  predicate AllUnique(storage: map<string, seq<CartItem>>) {
    forall key :: key in storage ==> Unique(storage[key])
  }

  /**
   * The `CartProvider` component: the session it sees, its `cart` state and
   * the browser's key-value storage. Each operation runs the state update and
   * then the persist effect, which writes the cart into the signed-in user's
   * slot and touches nothing when nobody is signed in.
   */
  class CartProvider {
    var session: Session
    var cart: seq<CartItem>
    var storage: map<string, seq<CartItem>>

    /** The cart and every stored cart keep the merge-key invariant. */
    ghost predicate Consistent()
      reads this
    {
      Unique(cart) && AllUnique(storage)
    }

    /**
     * Mounting the provider: the cart starts empty, then the load effect reads
     * the user's slot and the persist effect writes the loaded cart back.
     */
    constructor (session0: Session, storage0: map<string, seq<CartItem>>)
      ensures session == session0
      ensures cart == Loaded(session0, storage0)
      ensures SignedInEmail(session0).None? ==> storage == storage0
      ensures SignedInEmail(session0).Some? ==>
        storage == storage0[SlotKey(SignedInEmail(session0).value) := Stored(cart)]
      ensures AllUnique(storage0) ==> Consistent()
    {
      session := session0;
      cart := Loaded(session0, storage0);
      storage := storage0;
      new;
      Persist();
    }

    /** The persist effect. */
    method Persist()
      modifies this`storage
      ensures storage == Persisted(session, old(storage), cart)
      ensures SignedInEmail(session).None? ==> storage == old(storage)
      ensures SignedInEmail(session).Some? ==>
        storage == old(storage)[SlotKey(SignedInEmail(session).value) := Stored(cart)]
      ensures Unique(cart) && AllUnique(old(storage)) ==> AllUnique(storage)
    {
      match SignedInEmail(session)
      case None =>
      case Some(email) =>
        storage := storage[SlotKey(email) := Stored(cart)];
        if Unique(cart) {
          StoredUnique(cart);
        }
    }

    /** The session changed (sign-in, sign-out, switch of user): load, then persist. */
    method SessionChanged(session1: Session)
      modifies this
      ensures session == session1
      ensures cart == Loaded(session1, old(storage))
      ensures SignedInEmail(session1).None? ==> storage == old(storage)
      ensures SignedInEmail(session1).Some? ==>
        storage == old(storage)[SlotKey(SignedInEmail(session1).value) := Stored(cart)]
      ensures old(AllUnique(storage)) ==> Consistent()
    {
      session := session1;
      cart := Loaded(session1, storage);
      Persist();
    }

    method AddToCart(item: CartItem)
      modifies this`cart, this`storage
      ensures cart == Added(old(cart), item)
      ensures SignedInEmail(session).None? ==> storage == old(storage)
      ensures SignedInEmail(session).Some? ==>
        storage == old(storage)[SlotKey(SignedInEmail(session).value) := Stored(cart)]
      ensures old(Consistent()) ==> Consistent()
    {
      if Unique(cart) {
        AddPreservesUnique(cart, item);
      }
      cart := Added(cart, item);
      Persist();
    }

    method RemoveFromCart(productId: string)
      modifies this`cart, this`storage
      ensures cart == Removed(old(cart), productId)
      ensures SignedInEmail(session).None? ==> storage == old(storage)
      ensures SignedInEmail(session).Some? ==>
        storage == old(storage)[SlotKey(SignedInEmail(session).value) := Stored(cart)]
      ensures old(Consistent()) ==> Consistent()
    {
      if Unique(cart) {
        RemovePreservesUnique(cart, productId);
      }
      cart := Removed(cart, productId);
      Persist();
    }

    method ClearCart()
      modifies this`cart, this`storage
      ensures cart == []
      ensures SignedInEmail(session).None? ==> storage == old(storage)
      ensures SignedInEmail(session).Some? ==>
        storage == old(storage)[SlotKey(SignedInEmail(session).value) := []]
      ensures old(Consistent()) ==> Consistent()
    {
      cart := [];
      Persist();
    }
  }
}
