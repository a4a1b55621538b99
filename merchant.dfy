/**
 * The travelling merchant (src/game/merchant.rs): the ship arrives on a
 * randomly drawn day, leaves at the next Night with freshly drawn prices,
 * and while it is in port the player can buy one item per tick with keys
 * 1, 2 and 3. The random draws are inputs here.
 */
module Merchant {
  import opened Types
  import opened Colors
  import opened GameEvents
  import opened Input
  import opened Log

  /** The next arrival is drawn from `gen_range(4, 7)`: 4, 5 or 6 days on. */
  const MIN_MERCHANT_ARRIVAL_DAYS: int := 4
  const MAX_MERCHANT_ARRIVAL_DAYS: int := 7

  /** The keys that buy food, gas and parts (`VirtualKeyCode::Key1` .. `Key3`). */
  const KEY_1: KeyCode := 1
  const KEY_2: KeyCode := 2
  const KEY_3: KeyCode := 3

  /** `COLOR_YELLOW`, the colour of the merchant's arrival and departure messages. */
  const YELLOW := Color(1.0, 1.0, 0.0, 1.0)

  const ARRIVAL_MESSAGE := "A merchant ship arrives, looking to sell some basic goods."
  const DEPARTURE_MESSAGE := "The merchant ship sails off into the sunset."
  const NO_MONEY_MESSAGE := "You don't have enough money for that..."

  /** The merchant's state as one value. */
  datatype Merchant = Merchant(hasArrived: bool, nextArrivalDay: int, foodPrice: int, gasPrice: int, partPrice: int)

  /**
   * The random draws available while reading one event: the arrival delay
   * for a new day, and the three prices for a departure. Only the ones the
   * event calls for are used.
   */
  datatype Roll = Roll(arrival: int, food: int, gas: int, part: int)

  /** The ranges of `gen_range(4, 7)`, `gen_range(2, 4)`, `gen_range(3, 8)` and `gen_range(3, 10)`, upper bounds excluded. */
  predicate RollInRange(r: Roll) {
    && MIN_MERCHANT_ARRIVAL_DAYS <= r.arrival < MAX_MERCHANT_ARRIVAL_DAYS
    && 2 <= r.food < 4 && 3 <= r.gas < 8 && 3 <= r.part < 10
  }

  /** The prices are among those a departure can draw (or the opening prices 2, 3 and 4). */
  predicate PricesInRange(m: Merchant) {
    2 <= m.foodPrice < 4 && 3 <= m.gasPrice < 8 && 3 <= m.partPrice < 10
  }

  /** A ship arrives on the day of a new day that has reached the arrival day. */
  predicate Arrives(m: Merchant, e: GameEvent) {
    e.NewDayStarted? && e.day >= m.nextArrivalDay
  }

  /** A ship in port leaves when Night starts. */
  predicate Departs(m: Merchant, e: GameEvent) {
    e.NewTimeOfDayStarted? && m.hasArrived && e.timeOfDay == Night
  }

  /**
   * One event's effect (the event loop of `MerchantSystem::run`): an arrival
   * sets the ship in port and draws the next arrival day from the event's
   * day; a departure clears it and draws new prices; anything else changes
   * nothing.
   */
  function Tick(m: Merchant, e: GameEvent, roll: Roll): (r: Merchant)
    ensures (r.foodPrice, r.gasPrice, r.partPrice) != (m.foodPrice, m.gasPrice, m.partPrice) ==> Departs(m, e)
    ensures r.nextArrivalDay != m.nextArrivalDay ==> Arrives(m, e)
    ensures r.hasArrived != m.hasArrived ==> Arrives(m, e) || Departs(m, e)
  {
    if Arrives(m, e) then
      m.(hasArrived := true, nextArrivalDay := e.day + roll.arrival)
    else if Departs(m, e) then
      m.(foodPrice := roll.food, gasPrice := roll.gas, partPrice := roll.part, hasArrived := false)
    else m
  }

  /** The log messages one event produces. */
  function TickLog(m: Merchant, e: GameEvent): (r: seq<LogEvent>)
    ensures |r| <= 1
    ensures r != [] <==> Arrives(m, e) || Departs(m, e)
  {
    if Arrives(m, e) then [LogEvent(ARRIVAL_MESSAGE, YELLOW)]
    else if Departs(m, e) then [LogEvent(DEPARTURE_MESSAGE, YELLOW)]
    else []
  }

  /**
   * What one event does, stated against the state before it: the arrival
   * and departure rules, with the next arrival 4 to 6 days after the day
   * of arrival, prices redrawn only on departure, exactly one message for
   * each of the two, and every other event ignored.
   */
  lemma TickSpec(m: Merchant, e: GameEvent, roll: Roll)
    requires RollInRange(roll)
    ensures var n := Tick(m, e, roll);
      && (Arrives(m, e) ==>
            n.hasArrived && e.day + 4 <= n.nextArrivalDay <= e.day + 6
            && (n.foodPrice, n.gasPrice, n.partPrice) == (m.foodPrice, m.gasPrice, m.partPrice)
            && TickLog(m, e) == [LogEvent(ARRIVAL_MESSAGE, YELLOW)])
      && (Departs(m, e) && !Arrives(m, e) ==>
            !n.hasArrived && n.nextArrivalDay == m.nextArrivalDay && PricesInRange(n)
            && TickLog(m, e) == [LogEvent(DEPARTURE_MESSAGE, YELLOW)])
      && (e.NewDayStarted? && e.day < m.nextArrivalDay ==> n == m && TickLog(m, e) == [])
      && (e.NewTimeOfDayStarted? && (!m.hasArrived || e.timeOfDay != Night) ==> n == m && TickLog(m, e) == [])
      && (!e.NewDayStarted? && !e.NewTimeOfDayStarted? ==> n == m && TickLog(m, e) == [])
  {
  }

  /** The state after reading `events`, event `i` with draws `rolls[i]`. */
  function Replay(m: Merchant, events: seq<GameEvent>, rolls: seq<Roll>): (r: Merchant)
    requires |rolls| == |events|
    ensures (forall i :: 0 <= i < |events| ==> !events[i].NewDayStarted? && !events[i].NewTimeOfDayStarted?) ==> r == m
  {
    if events == [] then m
    else
      var k := |events| - 1;
      Tick(Replay(m, events[..k], rolls[..k]), events[k], rolls[k])
  }

  /** The messages written while reading `events`, in order. */
  function ReplayLog(m: Merchant, events: seq<GameEvent>, rolls: seq<Roll>): (r: seq<LogEvent>)
    requires |rolls| == |events|
    ensures |r| <= |events|
  {
    if events == [] then []
    else
      var k := |events| - 1;
      ReplayLog(m, events[..k], rolls[..k]) + TickLog(Replay(m, events[..k], rolls[..k]), events[k])
  }

  /** Prices always stay within what the draws can give, and at most one message is written per event. */
  lemma {:induction false} ReplayInvariant(m: Merchant, events: seq<GameEvent>, rolls: seq<Roll>)
    requires |rolls| == |events| && forall i :: 0 <= i < |rolls| ==> RollInRange(rolls[i])
    requires PricesInRange(m)
    ensures PricesInRange(Replay(m, events, rolls))
    ensures |ReplayLog(m, events, rolls)| <= |events|
  {
    if events != [] {
      var k := |events| - 1;
      ReplayInvariant(m, events[..k], rolls[..k]);
      TickSpec(Replay(m, events[..k], rolls[..k]), events[k], rolls[k]);
    }
  }

  /** The goods of the player the merchant trades with: money and the three stocks. */
  datatype Goods = Goods(money: int, food: int, gas: int, parts: int)

  datatype Item = Food | Gas | Parts

  /** The item the pressed keys ask for: key 1 before key 2 before key 3. */
  function Chosen(key1: bool, key2: bool, key3: bool): (r: Option<Item>)
    ensures r.None? <==> !key1 && !key2 && !key3
  {
    if key1 then Some(Food) else if key2 then Some(Gas) else if key3 then Some(Parts) else None
  }

  function Price(m: Merchant, item: Item): int {
    match item
    case Food => m.foodPrice
    case Gas => m.gasPrice
    case Parts => m.partPrice
  }

  /** The goods with one more of `item`. */
  function Restocked(g: Goods, item: Item): Goods {
    match item
    case Food => g.(food := g.food + 1)
    case Gas => g.(gas := g.gas + 1)
    case Parts => g.(parts := g.parts + 1)
  }

  /** What a purchase attempt leaves: the goods, the messages written, and whether anything was bought. */
  datatype Sale = Sale(goods: Goods, log: seq<LogEvent>, purchased: bool)

  /** The purchase block of `MerchantSystem::run`, for a ship in port. */
  function Purchase(m: Merchant, g: Goods, key1: bool, key2: bool, key3: bool): (s: Sale)
    ensures !s.purchased ==> s.goods == g
    ensures |s.log| <= 1
  {
    if key1 then
      if g.money >= m.foodPrice then
        Sale(g.(money := g.money - m.foodPrice, food := g.food + 1), [LogEvent("You purchase some food.", GREEN)], true)
      else Sale(g, [LogEvent(NO_MONEY_MESSAGE, RED)], false)
    else if key2 then
      if g.money >= m.gasPrice then
        Sale(g.(money := g.money - m.gasPrice, gas := g.gas + 1), [LogEvent("You purchase some gas.", GREEN)], true)
      else Sale(g, [LogEvent(NO_MONEY_MESSAGE, RED)], false)
    else if key3 then
      if g.money >= m.partPrice then
        Sale(g.(money := g.money - m.partPrice, parts := g.parts + 1), [LogEvent("You purchase some parts.", GREEN)], true)
      else Sale(g, [LogEvent(NO_MONEY_MESSAGE, RED)], false)
    else Sale(g, [], false)
  }

  /**
   * The purchase rule: at most one item, the one of the first pressed key;
   * bought exactly when the money covers its price, in which case the money
   * drops by the price and that stock alone rises by one; otherwise the
   * goods are unchanged. One message per attempt, none without a key.
   */
  lemma PurchaseSpec(m: Merchant, g: Goods, key1: bool, key2: bool, key3: bool)
    ensures var s := Purchase(m, g, key1, key2, key3);
      var item := Chosen(key1, key2, key3);
      && (s.purchased <==> item.Some? && g.money >= Price(m, item.value))
      && (s.purchased ==> s.goods == Restocked(g.(money := g.money - Price(m, item.value)), item.value))
      && (!s.purchased ==> s.goods == g)
      && (|s.log| == if item.Some? then 1 else 0)
      && (item.Some? && !s.purchased ==> s.log == [LogEvent(NO_MONEY_MESSAGE, RED)])
  {
  }

  /** A purchase never takes the money below zero when it started at zero or more. */
  lemma PurchaseSolvent(m: Merchant, g: Goods, key1: bool, key2: bool, key3: bool)
    requires g.money >= 0
    ensures Purchase(m, g, key1, key2, key3).goods.money >= 0
  {
    PurchaseSpec(m, g, key1, key2, key3);
  }

  /** `MerchantState`. */
  class MerchantState {
    var hasArrived: bool
    var nextArrivalDay: int
    var foodPrice: int
    var gasPrice: int
    var partPrice: int

    function Current(): Merchant
      reads this
    {
      Merchant(hasArrived, nextArrivalDay, foodPrice, gasPrice, partPrice)
    }

    /** `MerchantState::new`: not in port, prices 2, 3 and 4, first arrival on day `arrival` (4, 5 or 6). */
    constructor (arrival: int)
      requires MIN_MERCHANT_ARRIVAL_DAYS <= arrival < MAX_MERCHANT_ARRIVAL_DAYS
      ensures Current() == Merchant(false, arrival, 2, 3, 4)
      ensures PricesInRange(Current())
    {
      hasArrived, nextArrivalDay := false, arrival;
      foodPrice, gasPrice, partPrice := 2, 3, 4;
    }
  }

  /**
   * `MerchantSystem::run`: reads the tick's events (event `i` with draws
   * `rolls[i]`), then, unless the game is over, lets a ship in port sell
   * one item. Returns the goods, the log messages written and the game
   * events written: `RefreshActivities` exactly when something was bought.
   */
  method RunMerchantSystem(merchant: MerchantState, input: InputState, goods: Goods, gameOver: bool,
                           events: seq<GameEvent>, rolls: seq<Roll>)
    returns (newGoods: Goods, logs: seq<LogEvent>, emitted: seq<GameEvent>)
    requires |rolls| == |events|
    modifies merchant
    ensures merchant.Current() == Replay(old(merchant.Current()), events, rolls)
    ensures gameOver || !merchant.hasArrived ==>
      newGoods == goods && logs == ReplayLog(old(merchant.Current()), events, rolls) && emitted == []
    ensures !gameOver && merchant.hasArrived ==>
      var sale := Purchase(merchant.Current(), goods, input.IsKeyPressed(KEY_1), input.IsKeyPressed(KEY_2), input.IsKeyPressed(KEY_3));
      && newGoods == sale.goods
      && logs == ReplayLog(old(merchant.Current()), events, rolls) + sale.log
      && emitted == (if sale.purchased then [RefreshActivities] else [])
  {
    ghost var m0 := merchant.Current();
    logs := [];
    var i := 0;
    while i < |events|
      invariant i <= |events|
      invariant merchant.Current() == Replay(m0, events[..i], rolls[..i])
      invariant logs == ReplayLog(m0, events[..i], rolls[..i])
    {
      assert events[..i + 1][..i] == events[..i] && rolls[..i + 1][..i] == rolls[..i];
      var written := ReadEvent(merchant, events[i], rolls[i]);
      logs := logs + written;
      i := i + 1;
    }
    assert events[..i] == events && rolls[..i] == rolls;

    newGoods, emitted := goods, [];
    if gameOver {
      return;
    }
    if merchant.hasArrived {
      var sale := SellOne(merchant, input, goods);
      newGoods, logs := sale.goods, logs + sale.log;
      if sale.purchased {
        emitted := [RefreshActivities];
      }
    }
  }

  /** One pass of the event loop of `MerchantSystem::run`. */
  method ReadEvent(merchant: MerchantState, event: GameEvent, roll: Roll) returns (written: seq<LogEvent>)
    modifies merchant
    ensures merchant.Current() == Tick(old(merchant.Current()), event, roll)
    ensures written == TickLog(old(merchant.Current()), event)
  {
    written := [];
    match event {
      case NewDayStarted(day) =>
        if day >= merchant.nextArrivalDay {
          merchant.hasArrived := true;
          merchant.nextArrivalDay := day + roll.arrival;
          written := [LogEvent(ARRIVAL_MESSAGE, YELLOW)];
        }
      case NewTimeOfDayStarted(timeOfDay) =>
        if merchant.hasArrived && timeOfDay == Night {
          written := [LogEvent(DEPARTURE_MESSAGE, YELLOW)];
          merchant.foodPrice := roll.food;
          merchant.gasPrice := roll.gas;
          merchant.partPrice := roll.part;
          merchant.hasArrived := false;
        }
      case _ =>
    }
  }

  /** The purchase block of `MerchantSystem::run`: one attempt, for the first pressed key. */
  method SellOne(merchant: MerchantState, input: InputState, goods: Goods) returns (sale: Sale)
    ensures sale == Purchase(merchant.Current(), goods, input.IsKeyPressed(KEY_1), input.IsKeyPressed(KEY_2), input.IsKeyPressed(KEY_3))
  {
    var newGoods, logs := goods, [];
    var didPurchase := false;
    var currentMoney := goods.money;
    if input.IsKeyPressed(KEY_1) {
      if currentMoney >= merchant.foodPrice {
        newGoods := newGoods.(money := newGoods.money - merchant.foodPrice);
        newGoods := newGoods.(food := newGoods.food + 1);
        didPurchase := true;
        logs := logs + [LogEvent("You purchase some food.", GREEN)];
      } else {
        logs := logs + [LogEvent(NO_MONEY_MESSAGE, RED)];
      }
    } else if input.IsKeyPressed(KEY_2) {
      if currentMoney >= merchant.gasPrice {
        newGoods := newGoods.(money := newGoods.money - merchant.gasPrice);
        newGoods := newGoods.(gas := newGoods.gas + 1);
        didPurchase := true;
        logs := logs + [LogEvent("You purchase some gas.", GREEN)];
      } else {
        logs := logs + [LogEvent(NO_MONEY_MESSAGE, RED)];
      }
    } else if input.IsKeyPressed(KEY_3) {
      if currentMoney >= merchant.partPrice {
        newGoods := newGoods.(money := newGoods.money - merchant.partPrice);
        newGoods := newGoods.(parts := newGoods.parts + 1);
        didPurchase := true;
        logs := logs + [LogEvent("You purchase some parts.", GREEN)];
      } else {
        logs := logs + [LogEvent(NO_MONEY_MESSAGE, RED)];
      }
    }
    sale := Sale(newGoods, logs, didPurchase);
  }
}
