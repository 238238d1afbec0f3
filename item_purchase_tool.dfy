/** The `itemPurchaseTool` Lightning web component: the instance state it keeps and
    the sequential updates its handlers make to that state. Remote Apex calls and wire
    adapters are not modelled as code; their results arrive as method parameters. */
module PurchaseTool {

  datatype Option<T> = None | Some(value: T)

  /** A catalog record (`Item__c`) as the component receives it: `Id`, `Name` and the
      remaining fields by API name. */
  datatype Item = Item(Id: string, Name: string, Fields: map<string, string>)

  /** A cart entry `{ ...item, Quantity: 1 }`. `item` is None when the spread value was
      `undefined`, so the entry holds nothing but its `Quantity`. */
  datatype CartLine = CartLine(item: Option<Item>, Quantity: int)

  /** What a wire adapter delivers: `{ data, error }`, either of which may be undefined. */
  datatype Wire<T> = Wire(data: Option<T>, error: Option<string>)

  /** The account fields the component displays; each may be missing. */
  datatype AccountData = AccountData(Name: Option<string>, AccountNumber: Option<string>, Industry: Option<string>)

  /** Outcome of the image lookup awaited in `handleBeforeSubmit`: a URL, or a thrown error. */
  datatype ImageLookup = Success(url: string) | Failure(error: string)

  /** What `selectedItem` holds: the initial empty object `{}`, or the result of a
      lookup in the catalog (None when `find` gave `undefined`). */
  datatype Selection = EmptyObject | Looked(found: Option<Item>)

  /** How `addToCart` ends: with the toast message it builds, or with the TypeError that
      reading `Name` of `undefined` throws (after the cart has already grown). */
  datatype AddOutcome = Added(message: string) | ThrewTypeError

  const ImageField := "Image__c"
  const AddedSuffix := " added to cart"
  const NoName := "N/A"
  const NoNumber := "No Number"
  const NoIndustry := "No Industry"

  /** JavaScript truthiness of a possibly undefined string: defined and non-empty. */
  predicate Truthy(v: Option<string>) {
    v.Some? && v.value != ""
  }

  /** `data?.field || fallback`: the field when it is truthy, otherwise the fallback. */
  function OrDefault(v: Option<string>, fallback: string): (r: string)
    requires fallback != ""
    ensures r != ""
    ensures Truthy(v) ==> r == v.value
    ensures !Truthy(v) ==> r == fallback
  {
    if Truthy(v) then v.value else fallback
  }

  /** `items.find(i => i.Id === id)`, as a reference definition. */
  function Find(items: seq<Item>, id: string): (r: Option<Item>)
    ensures r.Some? ==> r.value in items && r.value.Id == id
  {
    if items == [] then None
    else if items[0].Id == id then Some(items[0])
    else Find(items[1..], id)
  }

  /** Position k holds the first item of `items` whose `Id` is `id`. */
  ghost predicate FirstMatchAt(items: seq<Item>, id: string, k: int) {
    0 <= k < |items| && items[k].Id == id && forall j :: 0 <= j < k ==> items[j].Id != id
  }

  /** `Find` yields undefined exactly when no item has the id, and otherwise the first
      item that has it. */
  lemma {:induction false} FindIsFirstMatch(items: seq<Item>, id: string)
    ensures Find(items, id).None? <==> forall k :: 0 <= k < |items| ==> items[k].Id != id
    ensures Find(items, id).Some? ==>
      exists k :: FirstMatchAt(items, id, k) && Find(items, id).value == items[k]
  {
    if items != [] && items[0].Id != id {
      var rest := items[1..];
      FindIsFirstMatch(rest, id);
      forall k | 0 <= k < |rest| ensures rest[k] == items[k + 1] { }
      if Find(items, id).Some? {
        var k :| FirstMatchAt(rest, id, k) && Find(rest, id).value == rest[k];
        assert FirstMatchAt(items, id, k + 1);
      }
    }
  }

  /** Every lookup of an id at the first matching position returns that item. */
  lemma {:induction false} FindAtFirstMatch(items: seq<Item>, id: string, k: int)
    requires FirstMatchAt(items, id, k)
    ensures Find(items, id) == Some(items[k])
  {
    if k > 0 {
      assert items[0].Id != id;
      assert FirstMatchAt(items[1..], id, k - 1);
      FindAtFirstMatch(items[1..], id, k - 1);
    }
  }

  /** The linear search `items.find(i => i.Id === id)`. */
  method FindById(items: seq<Item>, id: string) returns (found: Option<Item>)
    ensures found == Find(items, id)
  {
    var i := 0;
    while i < |items|
      invariant 0 <= i <= |items|
      invariant Find(items[i..], id) == Find(items, id)
    {
      if items[i].Id == id {
        return Some(items[i]);
      }
      assert items[i..][1..] == items[i + 1..];
      i := i + 1;
    }
    return None;
  }

  class ItemPurchaseTool {
    var items: seq<Item>
    var isManager: bool
    var isCreateModalOpen: bool
    var isDetailsModalOpen: bool
    var selectedItem: Selection
    var isCartModalOpen: bool
    var cart: seq<CartLine>
    var newItemName: string
    var selectedSearchItem: string
    var selectedType: string
    var selectedFamily: string
    /** The last payload of the items wire; None until it first fires. */
    var wiredItemsResult: Option<Wire<seq<Item>>>
    /** The wired `account` property. */
    var account: Wire<AccountData>

    /** Only `addToCart` writes the cart, and it always writes `Quantity: 1`. */
    ghost predicate Valid()
      reads this`cart
    {
      forall i :: 0 <= i < |cart| ==> cart[i].Quantity == 1
    }

    /** The field initialisers of the component. */
    constructor ()
      ensures Valid()
      ensures items == [] && cart == [] && !isManager
      ensures !isCreateModalOpen && !isDetailsModalOpen && !isCartModalOpen
      ensures selectedItem == EmptyObject
      ensures newItemName == "" && selectedSearchItem == "" && selectedType == "" && selectedFamily == ""
      ensures wiredItemsResult == None
      ensures account == Wire(None, None)
    {
      items := [];
      isManager := false;
      isCreateModalOpen := false;
      isDetailsModalOpen := false;
      selectedItem := EmptyObject;
      isCartModalOpen := false;
      cart := [];
      newItemName := "";
      selectedSearchItem := "";
      selectedType := "";
      selectedFamily := "";
      wiredItemsResult := None;
      account := Wire(None, None);
    }

    /** The wire adapter storing the account payload in the `account` property. */
    method WiredAccount(payload: Wire<AccountData>)
      modifies this`account
      ensures account == payload
    {
      account := payload;
    }

    /** `wiredManager`: the flag is set only by a truthy `data`, so it never drops back to false. */
    method WiredManager(payload: Wire<bool>)
      modifies this`isManager
      ensures payload.data == Some(true) ==> isManager
      ensures payload.data != Some(true) ==> isManager == old(isManager)
      ensures old(isManager) ==> isManager
    {
      if payload.data == Some(true) {
        isManager := true;
      }
    }

    /** `wiredItems`: keeps the payload; a delivered list (even an empty one, since
        arrays are truthy) replaces the cache, and an error leaves it as it was. */
    method WiredItems(payload: Wire<seq<Item>>)
      modifies this`wiredItemsResult, this`items
      ensures wiredItemsResult == Some(payload)
      ensures payload.data.Some? ==> items == payload.data.value
      ensures payload.data.None? ==> items == old(items)
    {
      wiredItemsResult := Some(payload);
      if payload.data.Some? {
        items := payload.data.value;
      }
    }

    /** The account's `Name`, or "N/A". */
    function AccName(): (r: string)
      reads this`account
      ensures r != ""
      ensures account.data.Some? && Truthy(account.data.value.Name) ==> r == account.data.value.Name.value
      ensures account.data.None? ==> r == NoName
      ensures account.data.Some? && !Truthy(account.data.value.Name) ==> r == NoName
    {
      OrDefault(if account.data.Some? then account.data.value.Name else None, NoName)
    }

    /** The account's `AccountNumber`, or "No Number". */
    function AccNumber(): (r: string)
      reads this`account
      ensures r != ""
      ensures account.data.Some? && Truthy(account.data.value.AccountNumber) ==> r == account.data.value.AccountNumber.value
      ensures account.data.None? ==> r == NoNumber
      ensures account.data.Some? && !Truthy(account.data.value.AccountNumber) ==> r == NoNumber
    {
      OrDefault(if account.data.Some? then account.data.value.AccountNumber else None, NoNumber)
    }

    /** The account's `Industry`, or "No Industry". */
    function AccIndustry(): (r: string)
      reads this`account
      ensures r != ""
      ensures account.data.Some? && Truthy(account.data.value.Industry) ==> r == account.data.value.Industry.value
      ensures account.data.None? ==> r == NoIndustry
      ensures account.data.Some? && !Truthy(account.data.value.Industry) ==> r == NoIndustry
    {
      OrDefault(if account.data.Some? then account.data.value.Industry else None, NoIndustry)
    }

    /** `itemsCount`: the number of items in the cache. */
    function ItemsCount(): (r: nat)
      reads this`items
      ensures r == |items|
    {
      |items|
    }

    method HandleSearchChange(value: string)
      modifies this`selectedSearchItem
      ensures selectedSearchItem == value
    {
      selectedSearchItem := value;
    }

    method HandleCreateItem()
      modifies this`isCreateModalOpen
      ensures isCreateModalOpen
    {
      isCreateModalOpen := true;
    }

    method CloseCreateModal()
      modifies this`isCreateModalOpen
      ensures !isCreateModalOpen
    {
      isCreateModalOpen := false;
    }

    method HandleNameChange(value: string)
      modifies this`newItemName
      ensures newItemName == value
    {
      newItemName := value;
    }

    /** The fields `handleBeforeSubmit` submits: when a name has been typed and the image
        service answers with a URL, the input fields with `Image__c` set to that URL;
        otherwise (no name, or the lookup threw) the input fields as they are. */
    method HandleBeforeSubmit(fields: map<string, string>, imageService: string -> ImageLookup)
      returns (submitted: map<string, string>)
      ensures newItemName != "" && imageService(newItemName).Success? ==>
        submitted == fields[ImageField := imageService(newItemName).url]
      ensures newItemName == "" || imageService(newItemName).Failure? ==> submitted == fields
      ensures forall k :: k in fields && k != ImageField ==> k in submitted && submitted[k] == fields[k]
    {
      submitted := fields;
      if newItemName != "" {
        var lookup := imageService(newItemName);
        match lookup
        case Success(url) =>
          submitted := submitted[ImageField := url];
        case Failure(_) =>
      }
    }

    /** `handleCreateSuccess` closes the create modal (the toast and the cache refresh
        are not modelled). */
    method HandleCreateSuccess()
      modifies this`isCreateModalOpen
      ensures !isCreateModalOpen
    {
      isCreateModalOpen := false;
    }

    /** `addToCart`: always appends one line `{ ...item, Quantity: 1 }` built from the first
        item with the id; when there is none, the line holds only the quantity and the
        handler then throws while building its toast. */
    method AddToCart(id: string) returns (outcome: AddOutcome)
      requires Valid()
      modifies this`cart
      ensures Valid()
      ensures cart == old(cart) + [CartLine(Find(items, id), 1)]
      ensures Find(items, id).Some? ==> outcome == Added(Find(items, id).value.Name + AddedSuffix)
      ensures Find(items, id).None? ==> outcome == ThrewTypeError
    {
      var item := FindById(items, id);
      cart := cart + [CartLine(item, 1)];
      match item
      case Some(it) =>
        outcome := Added(it.Name + AddedSuffix);
      case None =>
        outcome := ThrewTypeError;
    }

    method ToggleCart()
      modifies this`isCartModalOpen
      ensures isCartModalOpen == !old(isCartModalOpen)
    {
      isCartModalOpen := !isCartModalOpen;
    }

    /** `handleDetails`: selects the result of looking the id up and opens the details modal. */
    method HandleDetails(id: string)
      modifies this`selectedItem, this`isDetailsModalOpen
      ensures selectedItem == Looked(Find(items, id))
      ensures isDetailsModalOpen
    {
      var item := FindById(items, id);
      selectedItem := Looked(item);
      isDetailsModalOpen := true;
    }

    method CloseDetailsModal()
      modifies this`isDetailsModalOpen
      ensures !isDetailsModalOpen
    {
      isDetailsModalOpen := false;
    }
  }

  /** Adding an item that is in the catalog makes the cart exactly one line longer, keeps
      the earlier lines in order, and ends it with that item at quantity 1. */
  method AddPresentItem(tool: ItemPurchaseTool, id: string, ghost k: int) returns (outcome: AddOutcome)
    requires tool.Valid()
    requires FirstMatchAt(tool.items, id, k)
    modifies tool`cart
    ensures tool.Valid()
    ensures |tool.cart| == |old(tool.cart)| + 1
    ensures tool.cart[..|old(tool.cart)|] == old(tool.cart)
    ensures tool.cart[|tool.cart| - 1] == CartLine(Some(tool.items[k]), 1)
    ensures outcome == Added(tool.items[k].Name + AddedSuffix)
    ensures tool.items == old(tool.items)
  {
    FindAtFirstMatch(tool.items, id, k);
    outcome := tool.AddToCart(id);
  }

  /** Adding an id no item has still grows the cart, by a line with no item, and throws. */
  method AddMissingItem(tool: ItemPurchaseTool, id: string) returns (outcome: AddOutcome)
    requires tool.Valid()
    requires forall k :: 0 <= k < |tool.items| ==> tool.items[k].Id != id
    modifies tool`cart
    ensures tool.Valid()
    ensures tool.cart == old(tool.cart) + [CartLine(None, 1)]
    ensures outcome == ThrewTypeError
  {
    FindIsFirstMatch(tool.items, id);
    outcome := tool.AddToCart(id);
  }

  /** Adding the same id twice gives two separate, equal lines of quantity 1: there is
      no merge into one line of quantity 2, and the catalog is untouched. */
  method AddSameItemTwice(tool: ItemPurchaseTool, id: string)
    requires tool.Valid()
    modifies tool`cart
    ensures tool.Valid()
    ensures |tool.cart| == |old(tool.cart)| + 2
    ensures tool.cart[..|old(tool.cart)|] == old(tool.cart)
    ensures tool.cart[|tool.cart| - 2] == tool.cart[|tool.cart| - 1] == CartLine(Find(tool.items, id), 1)
    ensures forall i :: 0 <= i < |tool.cart| ==> tool.cart[i].Quantity != 2
    ensures tool.items == old(tool.items)
  {
    var _ := tool.AddToCart(id);
    var _ := tool.AddToCart(id);
  }

  /** Toggling the cart twice restores its flag. */
  method ToggleCartTwice(tool: ItemPurchaseTool)
    modifies tool`isCartModalOpen
    ensures tool.isCartModalOpen == old(tool.isCartModalOpen)
  {
    tool.ToggleCart();
    tool.ToggleCart();
  }

  /** The item cache is cleared by no payload: after an error-only payload the count is
      what it was, and after a data payload it is that list's length. */
  method ReceiveItems(tool: ItemPurchaseTool, payload: Wire<seq<Item>>)
    modifies tool`wiredItemsResult, tool`items
    ensures payload.data.None? ==> tool.ItemsCount() == old(tool.ItemsCount())
    ensures payload.data.Some? ==> tool.ItemsCount() == |payload.data.value|
  {
    tool.WiredItems(payload);
  }
}
