/** The client-side shopping cart: an ordered list of lines keyed by an
    integer `index`, the four operations that replace it, the two folds that
    derive its total and count, and the load/save pair that keeps it in
    `localStorage` under the key "cart". Money is in integer cents. */
module Cart {
  import opened Browser

  /** One line of the cart (`CartItem`). */
  datatype CartLine = CartLine(index: int, name: string, price: int, image: string, quantity: int)

  /** What a caller hands to `addToCart`: a line without its quantity. */
  datatype NewItem = NewItem(index: int, name: string, price: int, image: string)

  const CartKey: string := "cart"

  /** Some line of the cart has key `index`. */
  predicate HasIndex(lines: seq<CartLine>, index: int) {
    exists k | 0 <= k < |lines| :: lines[k].index == index
  }

  /** No two lines share a key. */
  ghost predicate UniqueKeys(lines: seq<CartLine>) {
    forall a, b | 0 <= a < b < |lines| :: lines[a].index != lines[b].index
  }

  /** The invariant the operations keep: keys are unique and every quantity
      is at least 1. */
  ghost predicate Wellformed(lines: seq<CartLine>) {
    && UniqueKeys(lines)
    && (forall k | 0 <= k < |lines| :: lines[k].quantity >= 1)
  }

  // ---------------------------------------------------------------------
  // The per-operation transforms (the functions passed to `setCartItems`)
  // ---------------------------------------------------------------------

  /** Every line with key `index` replaced by its image under `f`; the other
      lines, and the order, unchanged. */
  function MapMatching(lines: seq<CartLine>, index: int, f: CartLine -> CartLine): seq<CartLine> {
    if lines == [] then []
    else [if lines[0].index == index then f(lines[0]) else lines[0]] + MapMatching(lines[1..], index, f)
  }

  function Increment(line: CartLine): CartLine {
    line.(quantity := line.quantity + 1)
  }

  /** The line `addToCart` appends for an item not yet in the cart. */
  function FreshLine(item: NewItem): CartLine {
    CartLine(item.index, item.name, item.price, item.image, 1)
  }

  /** `addToCart`: merge into the existing line, or append a new one. */
  function AddLine(lines: seq<CartLine>, item: NewItem): seq<CartLine> {
    if HasIndex(lines, item.index) then MapMatching(lines, item.index, Increment)
    else lines + [FreshLine(item)]
  }

  /** `removeFromCart`: keep, in order, the lines whose key is not `index`. */
  function RemoveLine(lines: seq<CartLine>, index: int): seq<CartLine> {
    if lines == [] then []
    else (if lines[0].index == index then [] else [lines[0]]) + RemoveLine(lines[1..], index)
  }

  /** `updateQuantity`: a non-positive quantity falls back to removal. */
  function SetQuantity(lines: seq<CartLine>, index: int, quantity: int): seq<CartLine> {
    if quantity <= 0 then RemoveLine(lines, index)
    else MapMatching(lines, index, (l: CartLine) => l.(quantity := quantity))
  }

  // ---------------------------------------------------------------------
  // cartTotal and cartCount: `reduce` folds, and the sums they compute
  // ---------------------------------------------------------------------

  function TotalFrom(acc: int, lines: seq<CartLine>): int
    decreases |lines|
  {
    if lines == [] then acc
    else TotalFrom(acc + lines[0].price * lines[0].quantity, lines[1..])
  }

  function CountFrom(acc: int, lines: seq<CartLine>): int
    decreases |lines|
  {
    if lines == [] then acc else CountFrom(acc + lines[0].quantity, lines[1..])
  }

  /** `cartTotal`: a left fold from 0 adding price times quantity line by line. */
  function CartTotal(lines: seq<CartLine>): int {
    TotalFrom(0, lines)
  }

  /** `cartCount`: a left fold from 0 adding each line's quantity. */
  function CartCount(lines: seq<CartLine>): int {
    CountFrom(0, lines)
  }

  /** Σ price × quantity over the lines. */
  ghost function Amount(lines: seq<CartLine>): int {
    if lines == [] then 0 else lines[0].price * lines[0].quantity + Amount(lines[1..])
  }

  /** Σ quantity over the lines. */
  ghost function Units(lines: seq<CartLine>): int {
    if lines == [] then 0 else lines[0].quantity + Units(lines[1..])
  }

  lemma {:induction false} FoldsAreSums(acc: int, lines: seq<CartLine>)
    ensures TotalFrom(acc, lines) == acc + Amount(lines)
    ensures CountFrom(acc, lines) == acc + Units(lines)
    decreases |lines|
  {
    if lines != [] {
      FoldsAreSums(acc + lines[0].price * lines[0].quantity, lines[1..]);
      FoldsAreSums(acc + lines[0].quantity, lines[1..]);
    }
  }

  /** The two folds compute Σ price × quantity and Σ quantity. */
  lemma TotalsAreSums(lines: seq<CartLine>)
    ensures CartTotal(lines) == Amount(lines)
    ensures CartCount(lines) == Units(lines)
  {
    FoldsAreSums(0, lines);
  }

  lemma {:induction false} SumsAppend(a: seq<CartLine>, b: seq<CartLine>)
    ensures Amount(a + b) == Amount(a) + Amount(b)
    ensures Units(a + b) == Units(a) + Units(b)
  {
    if a == [] {
      assert a + b == b;
    } else {
      assert (a + b)[0] == a[0];
      assert (a + b)[1..] == a[1..] + b;
      SumsAppend(a[1..], b);
    }
  }

  lemma {:induction false} SumsUpdate(lines: seq<CartLine>, j: nat, x: CartLine)
    requires j < |lines|
    ensures Amount(lines[j := x]) == Amount(lines) - lines[j].price * lines[j].quantity + x.price * x.quantity
    ensures Units(lines[j := x]) == Units(lines) - lines[j].quantity + x.quantity
  {
    if j > 0 {
      assert lines[j := x][1..] == lines[1..][j - 1 := x];
      SumsUpdate(lines[1..], j - 1, x);
    }
  }

  // ---------------------------------------------------------------------
  // What each transform does
  // ---------------------------------------------------------------------

  lemma UniqueKeysTail(lines: seq<CartLine>)
    requires UniqueKeys(lines) && lines != []
    ensures UniqueKeys(lines[1..])
    ensures !HasIndex(lines[1..], lines[0].index)
  {
    forall k | 0 <= k < |lines| - 1 ensures lines[1..][k].index != lines[0].index {
      assert lines[1..][k] == lines[k + 1];
    }
  }

  lemma {:induction false} MapMatchingAbsent(lines: seq<CartLine>, index: int, f: CartLine -> CartLine)
    requires !HasIndex(lines, index)
    ensures MapMatching(lines, index, f) == lines
  {
    if lines != [] {
      assert !HasIndex(lines[1..], index) by {
        forall k | 0 <= k < |lines| - 1 ensures lines[1..][k].index != index {
          assert lines[1..][k] == lines[k + 1];
        }
      }
      MapMatchingAbsent(lines[1..], index, f);
    }
  }

  /** In a cart with unique keys, mapping over the lines with key `index`
      changes exactly the one line that has it. */
  lemma {:induction false} MapMatchingAt(lines: seq<CartLine>, index: int, f: CartLine -> CartLine, j: nat)
    requires UniqueKeys(lines) && j < |lines| && lines[j].index == index
    ensures MapMatching(lines, index, f) == lines[j := f(lines[j])]
  {
    UniqueKeysTail(lines);
    if j == 0 {
      MapMatchingAbsent(lines[1..], index, f);
    } else {
      assert lines[0].index != index;
      MapMatchingAt(lines[1..], index, f, j - 1);
      assert lines[j := f(lines[j])] == [lines[0]] + lines[1..][j - 1 := f(lines[j])];
    }
  }

  /** Adding an item whose index is present raises that line's quantity by
      exactly 1, keeps its stored name, price and image, changes no other
      line, and so raises the count by 1 and the total by the stored price. */
  lemma AddExisting(lines: seq<CartLine>, item: NewItem, j: nat)
    requires UniqueKeys(lines) && j < |lines| && lines[j].index == item.index
    ensures AddLine(lines, item) == lines[j := lines[j].(quantity := lines[j].quantity + 1)]
    ensures CartCount(AddLine(lines, item)) == CartCount(lines) + 1
    ensures CartTotal(AddLine(lines, item)) == CartTotal(lines) + lines[j].price
  {
    var r := AddLine(lines, item);
    MapMatchingAt(lines, item.index, Increment, j);
    SumsUpdate(lines, j, Increment(lines[j]));
    TotalsAreSums(lines);
    TotalsAreSums(r);
    assert lines[j].price * (lines[j].quantity + 1) == lines[j].price * lines[j].quantity + lines[j].price;
  }

  /** Adding an item whose index is absent appends one line with quantity 1
      and leaves the existing lines alone. */
  lemma AddAbsent(lines: seq<CartLine>, item: NewItem)
    requires !HasIndex(lines, item.index)
    ensures AddLine(lines, item) == lines + [CartLine(item.index, item.name, item.price, item.image, 1)]
    ensures CartCount(AddLine(lines, item)) == CartCount(lines) + 1
    ensures CartTotal(AddLine(lines, item)) == CartTotal(lines) + item.price
  {
    SumsAppend(lines, [FreshLine(item)]);
    TotalsAreSums(lines);
    TotalsAreSums(lines + [FreshLine(item)]);
  }

  lemma AddKeepsWellformed(lines: seq<CartLine>, item: NewItem)
    requires Wellformed(lines)
    ensures Wellformed(AddLine(lines, item))
  {
    if HasIndex(lines, item.index) {
      var j :| 0 <= j < |lines| && lines[j].index == item.index;
      MapMatchingAt(lines, item.index, Increment, j);
    }
  }

  /** The lines `removeFromCart` keeps are exactly those with another key. */
  lemma {:induction false} RemoveMembers(lines: seq<CartLine>, index: int)
    ensures forall x :: x in RemoveLine(lines, index) <==> x in lines && x.index != index
  {
    if lines != [] {
      RemoveMembers(lines[1..], index);
      assert lines == [lines[0]] + lines[1..];
    }
  }

  /** In a cart with unique keys, removing a present key drops exactly its
      line and keeps the others in their original order. */
  lemma {:induction false} RemoveAt(lines: seq<CartLine>, index: int, j: nat)
    requires UniqueKeys(lines) && j < |lines| && lines[j].index == index
    ensures RemoveLine(lines, index) == lines[..j] + lines[j + 1..]
  {
    UniqueKeysTail(lines);
    if j == 0 {
      RemoveAbsent(lines[1..], index);
    } else {
      RemoveAt(lines[1..], index, j - 1);
      assert lines[..j] + lines[j + 1..] == [lines[0]] + (lines[1..][..j - 1] + lines[1..][j..]);
    }
  }

  /** Removing an absent key is a no-op. */
  lemma {:induction false} RemoveAbsent(lines: seq<CartLine>, index: int)
    requires !HasIndex(lines, index)
    ensures RemoveLine(lines, index) == lines
  {
    if lines != [] {
      assert !HasIndex(lines[1..], index) by {
        forall k | 0 <= k < |lines| - 1 ensures lines[1..][k].index != index {
          assert lines[1..][k] == lines[k + 1];
        }
      }
      RemoveAbsent(lines[1..], index);
    }
  }

  /** Deleting one line keeps the remaining indices distinct. */
  lemma DeleteKeepsWellformed(lines: seq<CartLine>, j: nat)
    requires Wellformed(lines) && j < |lines|
    ensures Wellformed(lines[..j] + lines[j + 1..])
  {
    var r := lines[..j] + lines[j + 1..];
    forall a, b | 0 <= a < b < |r| ensures r[a].index != r[b].index {
      assert r[a] == lines[if a < j then a else a + 1];
      assert r[b] == lines[if b < j then b else b + 1];
    }
    forall k | 0 <= k < |r| ensures r[k].quantity >= 1 {
      assert r[k] == lines[if k < j then k else k + 1];
    }
  }

  lemma RemoveKeepsWellformed(lines: seq<CartLine>, index: int)
    requires Wellformed(lines)
    ensures Wellformed(RemoveLine(lines, index))
  {
    if HasIndex(lines, index) {
      var j :| 0 <= j < |lines| && lines[j].index == index;
      RemoveAt(lines, index, j);
      DeleteKeepsWellformed(lines, j);
    } else {
      RemoveAbsent(lines, index);
    }
  }

  /** A positive quantity replaces that one line's quantity and nothing
      else; count and total move by the difference. */
  lemma UpdatePositive(lines: seq<CartLine>, index: int, quantity: int, j: nat)
    requires UniqueKeys(lines) && j < |lines| && lines[j].index == index && quantity > 0
    ensures SetQuantity(lines, index, quantity) == lines[j := lines[j].(quantity := quantity)]
    ensures CartCount(SetQuantity(lines, index, quantity)) == CartCount(lines) - lines[j].quantity + quantity
    ensures CartTotal(SetQuantity(lines, index, quantity))
         == CartTotal(lines) + lines[j].price * (quantity - lines[j].quantity)
  {
    var f := (l: CartLine) => l.(quantity := quantity);
    MapMatchingAt(lines, index, f, j);
    SumsUpdate(lines, j, f(lines[j]));
    TotalsAreSums(lines);
    TotalsAreSums(lines[j := f(lines[j])]);
    assert lines[j].price * (quantity - lines[j].quantity)
        == lines[j].price * quantity - lines[j].price * lines[j].quantity;
  }

  /** `updateQuantity` on an absent key changes nothing, whatever the value. */
  lemma UpdateAbsent(lines: seq<CartLine>, index: int, quantity: int)
    requires !HasIndex(lines, index)
    ensures SetQuantity(lines, index, quantity) == lines
  {
    if quantity <= 0 {
      RemoveAbsent(lines, index);
    } else {
      MapMatchingAbsent(lines, index, (l: CartLine) => l.(quantity := quantity));
    }
  }

  lemma UpdateKeepsWellformed(lines: seq<CartLine>, index: int, quantity: int)
    requires Wellformed(lines)
    ensures Wellformed(SetQuantity(lines, index, quantity))
  {
    if quantity <= 0 {
      RemoveKeepsWellformed(lines, index);
    } else if HasIndex(lines, index) {
      var j :| 0 <= j < |lines| && lines[j].index == index;
      UpdatePositive(lines, index, quantity, j);
      var r := lines[j := lines[j].(quantity := quantity)];
      assert forall k | 0 <= k < |r| :: r[k].index == lines[k].index && r[k].quantity >= 1;
    } else {
      UpdateAbsent(lines, index, quantity);
    }
  }

  // ---------------------------------------------------------------------
  // Any sequence of operations
  // ---------------------------------------------------------------------

  datatype CartOp = Add(item: NewItem) | Remove(index: int) | Update(index: int, quantity: int)

  function Apply(lines: seq<CartLine>, op: CartOp): seq<CartLine> {
    match op
    case Add(item) => AddLine(lines, item)
    case Remove(index) => RemoveLine(lines, index)
    case Update(index, quantity) => SetQuantity(lines, index, quantity)
  }

  function Run(lines: seq<CartLine>, ops: seq<CartOp>): seq<CartLine>
    decreases |ops|
  {
    if ops == [] then lines else Run(Apply(lines, ops[0]), ops[1..])
  }

  lemma {:induction false} RunKeepsWellformed(lines: seq<CartLine>, ops: seq<CartOp>)
    requires Wellformed(lines)
    ensures Wellformed(Run(lines, ops))
    decreases |ops|
  {
    if ops != [] {
      match ops[0] {
        case Add(item) => AddKeepsWellformed(lines, item);
        case Remove(index) => RemoveKeepsWellformed(lines, index);
        case Update(index, quantity) => UpdateKeepsWellformed(lines, index, quantity);
      }
      RunKeepsWellformed(Apply(lines, ops[0]), ops[1..]);
    }
  }

  /** Starting from an empty cart, any sequence of add, remove and update
      keeps keys pairwise distinct and every quantity at least 1. */
  lemma FromEmptyWellformed(ops: seq<CartOp>)
    ensures Wellformed(Run([], ops))
  {
    RunKeepsWellformed([], ops);
  }

  /** `addToCart(item)` called `n` times. */
  function AddTimes(lines: seq<CartLine>, item: NewItem, n: nat): seq<CartLine> {
    if n == 0 then lines else AddLine(AddTimes(lines, item, n - 1), item)
  }

  /** Adding the same item `n` times to a cart without its key yields a
      single line for it, with quantity `n`, after the existing lines. */
  lemma {:induction false} RepeatedAdd(lines: seq<CartLine>, item: NewItem, n: nat)
    requires Wellformed(lines) && !HasIndex(lines, item.index) && n >= 1
    ensures AddTimes(lines, item, n) == lines + [CartLine(item.index, item.name, item.price, item.image, n)]
  {
    if n == 1 {
      AddAbsent(lines, item);
    } else {
      RepeatedAdd(lines, item, n - 1);
      var prev := lines + [CartLine(item.index, item.name, item.price, item.image, n - 1)];
      AddAbsent(lines, item);
      AddKeepsWellformed(lines, item);
      assert Wellformed(lines + [FreshLine(item)]);
      assert prev == (lines + [FreshLine(item)])[|lines| := prev[|lines|]];
      assert Wellformed(prev);
      AddExisting(prev, item, |lines|);
    }
  }

  /** The product details page always adds with index 0, so two different
      products added from it collapse into one line that keeps the first
      product's name, price and image. */
  lemma FixedIndexCollapses(first: NewItem, second: NewItem)
    requires first.index == 0 && second.index == 0
    ensures AddLine(AddLine([], first), second)
         == [CartLine(0, first.name, first.price, first.image, 2)]
  {
    AddAbsent([], first);
    assert [] + [FreshLine(first)] == [FreshLine(first)];
    AddExisting([FreshLine(first)], second, 0);
  }

  // ---------------------------------------------------------------------
  // Persistence
  // ---------------------------------------------------------------------

  /** The mount effect: a saved cart that is missing, empty or does not
      parse gives the empty list; otherwise the parsed list, unchecked. */
  function LoadCart(saved: Option<string>, codec: Codec<seq<CartLine>>): seq<CartLine> {
    if Truthy(saved) then
      match codec.decode(saved.value)
      case Some(lines) => lines
      case None => []
    else []
  }

  lemma LoadFallsBack(saved: Option<string>, codec: Codec<seq<CartLine>>)
    requires !Truthy(saved) || codec.decode(saved.value).None?
    ensures LoadCart(saved, codec) == []
  {
  }

  /** What the save effect writes, the mount effect reads back. */
  lemma SaveThenLoad(lines: seq<CartLine>, codec: Codec<seq<CartLine>>)
    requires RoundTrips(codec)
    ensures LoadCart(Some(codec.encode(lines)), codec) == lines
  {
  }

  /** The cart provider: its `cartItems` state, and the storage it writes
      after every change. */
  class CartStore {
    var items: seq<CartLine>
    const storage: LocalStorage
    const codec: Codec<seq<CartLine>>

    /** Mounting the provider: the load effect, then the save effect. */
    constructor Mount(storage: LocalStorage, codec: Codec<seq<CartLine>>)
      modifies storage
      ensures this.storage == storage && this.codec == codec
      ensures items == LoadCart(old(storage.GetItem(CartKey)), codec)
      ensures storage.entries == old(storage.entries)[CartKey := codec.encode(items)]
    {
      this.storage := storage;
      this.codec := codec;
      items := LoadCart(storage.GetItem(CartKey), codec);
      new;
      storage.SetItem(CartKey, codec.encode(items));
    }

    /** `cartTotal`. */
    function Total(): int
      reads this
    {
      CartTotal(items)
    }

    /** `cartCount`. */
    function Count(): int
      reads this
    {
      CartCount(items)
    }

    method AddToCart(item: NewItem)
      modifies this, storage
      ensures items == AddLine(old(items), item)
      ensures Wellformed(old(items)) ==> Wellformed(items)
      ensures storage.entries == old(storage.entries)[CartKey := codec.encode(items)]
    {
      if Wellformed(items) { AddKeepsWellformed(items, item); }
      items := AddLine(items, item);
      storage.SetItem(CartKey, codec.encode(items));
    }

    method RemoveFromCart(index: int)
      modifies this, storage
      ensures items == RemoveLine(old(items), index)
      ensures Wellformed(old(items)) ==> Wellformed(items)
      ensures storage.entries == old(storage.entries)[CartKey := codec.encode(items)]
    {
      if Wellformed(items) { RemoveKeepsWellformed(items, index); }
      items := RemoveLine(items, index);
      storage.SetItem(CartKey, codec.encode(items));
    }

    method UpdateQuantity(index: int, quantity: int)
      modifies this, storage
      ensures quantity <= 0 ==> items == RemoveLine(old(items), index)
      ensures items == SetQuantity(old(items), index, quantity)
      ensures Wellformed(old(items)) ==> Wellformed(items)
      ensures storage.entries == old(storage.entries)[CartKey := codec.encode(items)]
    {
      if quantity <= 0 {
        RemoveFromCart(index);
      } else {
        if Wellformed(items) { UpdateKeepsWellformed(items, index, quantity); }
        items := MapMatching(items, index, (l: CartLine) => l.(quantity := quantity));
        storage.SetItem(CartKey, codec.encode(items));
      }
    }

    /** `clearCart`: empty the list and remove the key; the save effect
        then runs for the new (empty) list. */
    method ClearCart()
      modifies this, storage
      ensures items == [] && Total() == 0 && Count() == 0
      ensures storage.entries == old(storage.entries)[CartKey := codec.encode([])]
    {
      items := [];
      storage.RemoveItem(CartKey);
      storage.SetItem(CartKey, codec.encode(items));
    }
  }
}
