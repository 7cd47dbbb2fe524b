/** The browser's cart and session slots (public/js/cart.js). `Storage`
    holds the two slots of local storage already decoded (`None` when the
    key is absent). Adding and removing read the cart slot, change the cart
    and write it back; saving, clearing and logging out overwrite or empty a
    slot without reading it. */
module Cart {
  import opened Wrappers
  import opened Seqs

  datatype CartItem = CartItem(id: int, quantity: int)

  /** What the cart page stores after a successful login. */
  datatype SessionUser = SessionUser(id: int, email: string, nombre: string)

  function HasId(id: int): CartItem -> bool
  {
    (item: CartItem) => item.id == id
  }

  function LacksId(id: int): CartItem -> bool
  {
    (item: CartItem) => item.id != id
  }

  /** The shape every cart written by this code has: no id twice, every
      quantity at least 1. */
  predicate WellFormed(cart: seq<CartItem>)
  {
    && (forall i, j :: 0 <= i < j < |cart| ==> cart[i].id != cart[j].id)
    && (forall i :: 0 <= i < |cart| ==> cart[i].quantity >= 1)
  }

  /** The cart after `addToCart(id)`. */
  function Added(cart: seq<CartItem>, id: int): (r: seq<CartItem>)
    ensures |r| == if exists j :: 0 <= j < |cart| && cart[j].id == id then |cart| else |cart| + 1
    ensures forall j :: 0 <= j < |cart| ==> r[j].id == cart[j].id
    ensures exists k :: 0 <= k < |r| && r[k].id == id
  {
    var i := FindIndex(cart, HasId(id));
    if i > -1 then
      var r := cart[i := CartItem(id, cart[i].quantity + 1)];
      assert r[i].id == id;
      r
    else
      var r := cart + [CartItem(id, 1)];
      assert r[|cart|].id == id;
      r
  }

  /** The cart after `removeFromCart(id)`. */
  function Removed(cart: seq<CartItem>, id: int): (r: seq<CartItem>)
    ensures |r| <= |cart|
    ensures forall j :: 0 <= j < |r| ==> r[j].id != id
    ensures forall item :: item in cart && item.id != id ==> item in r
  {
    var r := Filter(cart, LacksId(id));
    assert forall j :: 0 <= j < |r| ==> r[j] in r;
    r
  }

  /** Adding an id already in the cart adds one to the quantity of its
      (first) entry and changes nothing else. */
  lemma AddedPresent(cart: seq<CartItem>, id: int, k: nat)
    requires k < |cart| && cart[k].id == id
    requires forall j :: 0 <= j < k ==> cart[j].id != id
    ensures |Added(cart, id)| == |cart|
    ensures Added(cart, id)[k] == CartItem(id, cart[k].quantity + 1)
    ensures forall j :: 0 <= j < |cart| && j != k ==> Added(cart, id)[j] == cart[j]
  {
  }

  /** Adding an id not in the cart appends it with quantity 1. */
  lemma AddedAbsent(cart: seq<CartItem>, id: int)
    requires forall j :: 0 <= j < |cart| ==> cart[j].id != id
    ensures Added(cart, id) == cart + [CartItem(id, 1)]
  {
  }

  lemma AddedKeepsWellFormed(cart: seq<CartItem>, id: int)
    requires WellFormed(cart)
    ensures WellFormed(Added(cart, id))
    ensures exists k :: 0 <= k < |Added(cart, id)| && Added(cart, id)[k].id == id
  {
    var i := FindIndex(cart, HasId(id));
    var r := Added(cart, id);
    if i > -1 {
      assert r[i].id == id;
      assert forall j :: 0 <= j < |r| ==> r[j].id == cart[j].id;
    } else {
      assert r[|cart|].id == id;
    }
  }

  /** Removing keeps, in order, exactly the entries with another id;
      removing an id that is not in the cart leaves the cart as it is. */
  lemma {:induction false} RemovedSpec(cart: seq<CartItem>, id: int)
    ensures forall item :: item in Removed(cart, id) <==> item in cart && item.id != id
    ensures IsSubsequence(Removed(cart, id), cart)
    ensures (forall j :: 0 <= j < |cart| ==> cart[j].id != id) ==> Removed(cart, id) == cart
  {
    FilterIsSubsequence(cart, LacksId(id));
    if forall j :: 0 <= j < |cart| ==> cart[j].id != id {
      FilterKeepsAll(cart, LacksId(id));
    }
  }

  lemma {:induction false} RemovedKeepsWellFormed(cart: seq<CartItem>, id: int)
    requires WellFormed(cart)
    ensures WellFormed(Removed(cart, id))
  {
    var r := Removed(cart, id);
    FilterKeepsPairwise(cart, LacksId(id), (a: CartItem, b: CartItem) => a.id != b.id);
    assert forall j :: 0 <= j < |r| ==> r[j] in cart;
  }

  /** Removing an id right after adding it for the first time gives back
      the cart from before. */
  lemma {:induction false} RemoveUndoesFirstAdd(cart: seq<CartItem>, id: int)
    requires forall j :: 0 <= j < |cart| ==> cart[j].id != id
    ensures Removed(Added(cart, id), id) == cart
  {
    FilterAppend(cart, [CartItem(id, 1)], LacksId(id));
    FilterKeepsAll(cart, LacksId(id));
  }

  class Storage {
    var cartSlot: Option<seq<CartItem>>
    var userSlot: Option<SessionUser>

    /** A browser with nothing stored. */
    constructor ()
      ensures cartSlot.None? && userSlot.None?
    {
      cartSlot := None;
      userSlot := None;
    }

    /** `getCart`: the stored cart, or the empty cart when nothing is stored. */
    function GetCart(): (cart: seq<CartItem>)
      reads this
      ensures cartSlot.None? ==> cart == []
      ensures cartSlot.Some? ==> cart == cartSlot.value
    {
      if cartSlot.Some? then cartSlot.value else []
    }

    /** `getUser`: the stored user, or null when none is. */
    function GetUser(): (user: Option<SessionUser>)
      reads this
      ensures userSlot.None? ==> user.None?
      ensures userSlot.Some? ==> user == Some(userSlot.value)
    {
      userSlot
    }

    /** `saveCart` */
    method SaveCart(cart: seq<CartItem>)
      modifies this
      ensures cartSlot == Some(cart) && GetCart() == cart
      ensures userSlot == old(userSlot)
    {
      cartSlot := Some(cart);
    }

    /** `addToCart` */
    method AddToCart(productId: int)
      modifies this
      ensures GetCart() == Added(old(GetCart()), productId)
      ensures WellFormed(old(GetCart())) ==> WellFormed(GetCart())
      ensures userSlot == old(userSlot)
    {
      var cart := GetCart();
      var itemIndex := FindIndex(cart, HasId(productId));
      if itemIndex > -1 {
        cart := cart[itemIndex := cart[itemIndex].(quantity := cart[itemIndex].quantity + 1)];
      } else {
        cart := cart + [CartItem(productId, 1)];
      }
      if WellFormed(old(GetCart())) {
        AddedKeepsWellFormed(old(GetCart()), productId);
      }
      SaveCart(cart);
    }

    /** `clearCart`: the slot is removed, so the cart reads as empty. */
    method ClearCart()
      modifies this
      ensures cartSlot.None? && GetCart() == []
      ensures userSlot == old(userSlot)
    {
      cartSlot := None;
    }

    /** `removeFromCart` */
    method RemoveFromCart(productId: int)
      modifies this
      ensures GetCart() == Removed(old(GetCart()), productId)
      ensures WellFormed(old(GetCart())) ==> WellFormed(GetCart())
      ensures userSlot == old(userSlot)
    {
      var cart := GetCart();
      cart := Filter(cart, LacksId(productId));
      if WellFormed(old(GetCart())) {
        RemovedKeepsWellFormed(old(GetCart()), productId);
      }
      SaveCart(cart);
    }

    /** `saveUser` */
    method SaveUser(user: SessionUser)
      modifies this
      ensures GetUser() == Some(user)
      ensures cartSlot == old(cartSlot)
    {
      userSlot := Some(user);
    }

    /** `logoutUser`: the slot is removed, so no user reads back. */
    method LogoutUser()
      modifies this
      ensures GetUser() == None
      ensures cartSlot == old(cartSlot)
    {
      userSlot := None;
    }
  }
}
