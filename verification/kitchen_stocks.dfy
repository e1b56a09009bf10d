/**
 * The kitchen stock page: one card per food item and per combo, each
 * with a switch that flips the entry between "available" and
 * "not available" on the server and then in the page.
 */
module KitchenStocks {
  import opened Common

  const Available: string := "available"
  const NotAvailable: string := "not available"

  const FoodImagePrefix: string := "https://qr-backend-server.onrender.com/files/image/"
  const ComboImagePrefix: string := "https://qr-backend-server.onrender.com/combos/image/"

  const FetchError: string := "Error fetching data. Please try again."
  const UpdateError: string := "Error updating availability. Please try again."

  /** An element of `GET /menu/stocks`. */
  datatype StockRecord = StockRecord(
    id: string, name: string, imageId: string, price: string,
    categoryName: string, kind: string, stock: int, availability: string)

  /** An element of `GET /combos/combo`. */
  datatype ComboRecord = ComboRecord(
    id: string, comboName: string, comboImage: string, comboPrice: string,
    comboCategoryName: string, availability: string)

  /** The `foodItems` state: what a food item card shows. */
  datatype FoodCard = FoodCard(
    typeName: string, typeImageUrl: string, typePrice: string, categoryName: string,
    typeId: string, kind: string, stock: int, availability: string)

  /** The `combos` state: what a combo card shows. */
  datatype ComboCard = ComboCard(
    comboName: string, comboImageUrl: string, comboPrice: string,
    comboCategoryName: string, comboId: string, availability: string)

  // ---------------------------------------------------------------------
  // The switch

  /** `handleToggleChange`'s new status: "available" flips off, anything else flips on. */
  function Toggle(current: string): string {
    if current == Available then NotAvailable else Available
  }

  /** A card's switch is on exactly when its availability is "available". */
  predicate Checked(availability: string) {
    availability == Available
  }

  /** The new status is always one of the two the server knows, and it flips the switch. */
  lemma ToggleFlipsSwitch(current: string)
    ensures Toggle(current) == Available || Toggle(current) == NotAvailable
    ensures Checked(Toggle(current)) <==> !Checked(current)
  {
  }

  /** Flipping twice restores either of the two statuses. */
  lemma ToggleInvolution(current: string)
    requires current == Available || current == NotAvailable
    ensures Toggle(Toggle(current)) == current
  {
  }

  /** Any other stored value is normalised: two flips give "not available". */
  lemma ToggleNormalisesOthers(current: string)
    requires current != Available && current != NotAvailable
    ensures Toggle(current) == Available && Toggle(Toggle(current)) == NotAvailable
  {
  }

  // ---------------------------------------------------------------------
  // Server records to cards

  function ToFoodCard(r: StockRecord): FoodCard {
    FoodCard(r.name, FoodImagePrefix + r.imageId, r.price, r.categoryName, r.id, r.kind, r.stock, r.availability)
  }

  function ToComboCard(r: ComboRecord): ComboCard {
    ComboCard(r.comboName, ComboImagePrefix + r.comboImage, r.comboPrice, r.comboCategoryName, r.id, r.availability)
  }

  function ToFoodCards(rs: seq<StockRecord>): seq<FoodCard> {
    seq(|rs|, i requires 0 <= i < |rs| => ToFoodCard(rs[i]))
  }

  function ToComboCards(rs: seq<ComboRecord>): seq<ComboCard> {
    seq(|rs|, i requires 0 <= i < |rs| => ToComboCard(rs[i]))
  }

  /** The image id a card's URL was built from: what follows the fixed prefix. */
  function ImageIdOf(url: string, prefix: string): (id: string)
    requires prefix <= url
    ensures prefix + id == url
  {
    url[|prefix|..]
  }

  /**
   * Mapping keeps the length and the order; each card's id is the server
   * `_id`, its availability is copied, and its image URL is the fixed
   * prefix followed by the image id, which can be read back from it.
   */
  lemma FoodCardsFromRecords(rs: seq<StockRecord>)
    ensures |ToFoodCards(rs)| == |rs|
    ensures forall i | 0 <= i < |rs| ::
      var c := ToFoodCards(rs)[i];
      && c.typeId == rs[i].id
      && c.availability == rs[i].availability
      && c.typeName == rs[i].name
      && FoodImagePrefix <= c.typeImageUrl
      && ImageIdOf(c.typeImageUrl, FoodImagePrefix) == rs[i].imageId
  {
    forall i | 0 <= i < |rs|
      ensures FoodImagePrefix <= ToFoodCards(rs)[i].typeImageUrl
      ensures ImageIdOf(ToFoodCards(rs)[i].typeImageUrl, FoodImagePrefix) == rs[i].imageId
    {
      var url := FoodImagePrefix + rs[i].imageId;
      assert url[..|FoodImagePrefix|] == FoodImagePrefix;
      assert url[|FoodImagePrefix|..] == rs[i].imageId;
    }
  }

  lemma ComboCardsFromRecords(rs: seq<ComboRecord>)
    ensures |ToComboCards(rs)| == |rs|
    ensures forall i | 0 <= i < |rs| ::
      var c := ToComboCards(rs)[i];
      && c.comboId == rs[i].id
      && c.availability == rs[i].availability
      && c.comboName == rs[i].comboName
      && ComboImagePrefix <= c.comboImageUrl
      && ImageIdOf(c.comboImageUrl, ComboImagePrefix) == rs[i].comboImage
  {
    forall i | 0 <= i < |rs|
      ensures ComboImagePrefix <= ToComboCards(rs)[i].comboImageUrl
      ensures ImageIdOf(ToComboCards(rs)[i].comboImageUrl, ComboImagePrefix) == rs[i].comboImage
    {
      var url := ComboImagePrefix + rs[i].comboImage;
      assert url[..|ComboImagePrefix|] == ComboImagePrefix;
      assert url[|ComboImagePrefix|..] == rs[i].comboImage;
    }
  }

  // ---------------------------------------------------------------------
  // The local patch after a successful PATCH request

  function SetFoodAvailability(cards: seq<FoodCard>, id: string, status: string): seq<FoodCard> {
    seq(|cards|, i requires 0 <= i < |cards| =>
      if cards[i].typeId == id then cards[i].(availability := status) else cards[i])
  }

  function SetComboAvailability(cards: seq<ComboCard>, id: string, status: string): seq<ComboCard> {
    seq(|cards|, i requires 0 <= i < |cards| =>
      if cards[i].comboId == id then cards[i].(availability := status) else cards[i])
  }

  /**
   * Only the cards with the given id change, and only their availability;
   * the length and the order stay.
   */
  lemma SetFoodAvailabilityFrame(cards: seq<FoodCard>, id: string, status: string)
    ensures var after := SetFoodAvailability(cards, id, status);
      |after| == |cards| &&
      forall i | 0 <= i < |cards| ::
        && (cards[i].typeId != id ==> after[i] == cards[i])
        && (cards[i].typeId == id ==> after[i] == cards[i].(availability := status) && Checked(after[i].availability) == Checked(status))
  {
  }

  lemma SetComboAvailabilityFrame(cards: seq<ComboCard>, id: string, status: string)
    ensures var after := SetComboAvailability(cards, id, status);
      |after| == |cards| &&
      forall i | 0 <= i < |cards| ::
        && (cards[i].comboId != id ==> after[i] == cards[i])
        && (cards[i].comboId == id ==> after[i] == cards[i].(availability := status) && Checked(after[i].availability) == Checked(status))
  {
  }

  /** Setting the same status twice is setting it once. */
  lemma SetAvailabilityIdempotent(food: seq<FoodCard>, combos: seq<ComboCard>, id: string, status: string)
    ensures SetFoodAvailability(SetFoodAvailability(food, id, status), id, status) == SetFoodAvailability(food, id, status)
    ensures SetComboAvailability(SetComboAvailability(combos, id, status), id, status) == SetComboAvailability(combos, id, status)
  {
  }

  /**
   * Flipping a two-valued card's switch twice, each time from the status
   * the card then shows, gives back the original list.
   */
  lemma {:induction false} ToggleTwiceRestoresFood(cards: seq<FoodCard>, i: nat)
    requires i < |cards|
    requires forall j | 0 <= j < |cards| && cards[j].typeId == cards[i].typeId ::
      cards[j].availability == cards[i].availability
    requires cards[i].availability == Available || cards[i].availability == NotAvailable
    ensures var id := cards[i].typeId;
      var once := SetFoodAvailability(cards, id, Toggle(cards[i].availability));
      SetFoodAvailability(once, id, Toggle(once[i].availability)) == cards
  {
    var id := cards[i].typeId;
    var once := SetFoodAvailability(cards, id, Toggle(cards[i].availability));
    var twice := SetFoodAvailability(once, id, Toggle(once[i].availability));
    ToggleInvolution(cards[i].availability);
    forall j | 0 <= j < |cards|
      ensures twice[j] == cards[j]
    {
    }
  }

  // ---------------------------------------------------------------------
  // The page component

  class KitchenStocksPage {
    var foodItems: seq<FoodCard>
    var combos: seq<ComboCard>
    var loading: bool
    var error: Option<string>

    constructor ()
      ensures foodItems == [] && combos == [] && loading && error == None
    {
      foodItems := [];
      combos := [];
      loading := true;
      error := None;
    }

    /**
     * `fetchFoodItemsImages`, given the replies to its two GET requests in
     * the order they are made. A failed food request stops before the
     * combo request; a failed combo request keeps the new food cards.
     */
    method FetchFoodItemsImages(foodResponse: Response<seq<StockRecord>>, comboResponse: Response<seq<ComboRecord>>)
      modifies this
      ensures !loading
      ensures foodResponse.Failure? ==>
        foodItems == old(foodItems) && combos == old(combos) && error == Some(FetchError)
      ensures foodResponse.Success? ==> foodItems == ToFoodCards(foodResponse.body)
      ensures foodResponse.Success? && comboResponse.Failure? ==>
        combos == old(combos) && error == Some(FetchError)
      ensures foodResponse.Success? && comboResponse.Success? ==>
        combos == ToComboCards(comboResponse.body) && error == None
    {
      loading := true;
      error := None;
      if foodResponse.Failure? {
        error := Some(FetchError);
      } else {
        foodItems := ToFoodCards(foodResponse.body);
        if comboResponse.Failure? {
          error := Some(FetchError);
        } else {
          combos := ToComboCards(comboResponse.body);
        }
      }
      loading := false;
    }

    /**
     * `updateAvailability`, given the reply to its PATCH request. On
     * success `isCombo` picks the list that is patched and the other is
     * left alone; on failure neither changes and the error is set.
     */
    method UpdateAvailability(id: string, newStatus: string, isCombo: bool, response: Response<()>)
      modifies this`foodItems, this`combos, this`error
      ensures response.Failure? ==>
        foodItems == old(foodItems) && combos == old(combos) && error == Some(UpdateError)
      ensures response.Success? && isCombo ==>
        combos == SetComboAvailability(old(combos), id, newStatus) &&
        foodItems == old(foodItems) && error == old(error)
      ensures response.Success? && !isCombo ==>
        foodItems == SetFoodAvailability(old(foodItems), id, newStatus) &&
        combos == old(combos) && error == old(error)
    {
      if response.Failure? {
        error := Some(UpdateError);
        return;
      }
      if isCombo {
        combos := SetComboAvailability(combos, id, newStatus);
      } else {
        foodItems := SetFoodAvailability(foodItems, id, newStatus);
      }
    }

    /** `handleToggleChange`: request the flipped status of the card's current one. */
    method HandleToggleChange(id: string, currentAvailability: string, isCombo: bool, response: Response<()>)
      modifies this`foodItems, this`combos, this`error
      ensures response.Failure? ==>
        foodItems == old(foodItems) && combos == old(combos) && error == Some(UpdateError)
      ensures response.Success? && isCombo ==>
        combos == SetComboAvailability(old(combos), id, Toggle(currentAvailability)) &&
        foodItems == old(foodItems) && error == old(error)
      ensures response.Success? && !isCombo ==>
        foodItems == SetFoodAvailability(old(foodItems), id, Toggle(currentAvailability)) &&
        combos == old(combos) && error == old(error)
    {
      var newStatus := if currentAvailability == Available then NotAvailable else Available;
      UpdateAvailability(id, newStatus, isCombo, response);
    }
  }
}
