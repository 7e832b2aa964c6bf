/**
 * What the app's transitions guarantee: the invariant of every state the rendered views can
 * reach, how the order list evolves, the quote's passage across sign-in, and the behaviours of
 * the handlers as written (a stale estimate in handleBuyNow, unchecked order identifiers).
 */
module SessionProperties {
  import opened Base
  import opened Tariff
  import opened Orders
  import opened Session

  // ---------------------------------------------------------------------------------------
  // The invariant
  // ---------------------------------------------------------------------------------------

  lemma InitSatisfiesInv()
    ensures Inv(Init)
  {
  }

  /** Any form edit keeps the invariant: a kept estimate still belongs to the (unchanged) cargo type and last-mile flag. */
  lemma InputChangePreservesInv(s: AppState, e: FieldEdit)
    requires Inv(s)
    ensures Inv(InputChange(s, e))
  {
  }

  lemma CalculatePreservesInv(s: AppState)
    requires Inv(s)
    ensures Inv(CalculateEstimate(s))
  {
  }

  lemma BuyNowPreservesInv(s: AppState)
    requires Inv(s) && s.view == Landing
    ensures Inv(BuyNow(s))
  {
  }

  lemma ShowLoginPreservesInv(s: AppState)
    requires Inv(s) && s.view == Landing
    ensures Inv(ShowLogin(s))
  {
  }

  lemma BackToLandingPreservesInv(s: AppState)
    requires Inv(s) && s.view == LoginPrompt
    ensures Inv(BackToLanding(s))
  {
  }

  lemma LoginPreservesInv(s: AppState, role: string)
    requires Inv(s)
    ensures Inv(Login(s, role))
  {
  }

  lemma LogoutPreservesInv(s: AppState)
    requires Inv(s)
    ensures Inv(Logout(s))
  {
  }

  /** A newly placed order goes in front of the rows before the seeds, so the seeds stay the tail. */
  lemma CreateOrderPreservesInv(s: AppState, k: nat, date: string)
    requires Inv(s)
    ensures Inv(CreateOrder(s, k, date))
  {
    var r := CreateOrder(s, k, date);
    if s.user.Some? {
      var n, m := |s.orders|, |InitialOrders|;
      assert r.orders == [r.orders[0]] + s.orders;
      assert r.orders[|r.orders| - m..] == s.orders[n - m..];
      assert IsClientOrder(r.orders[0]) by {
        assert r.orders[0].id == OrderId(k);
      }
      forall i | 0 <= i < |r.orders| - m ensures IsClientOrder(r.orders[i]) {
        if i > 0 { assert r.orders[i] == s.orders[i - 1]; }
      }
    }
  }

  lemma DiscardPreservesInv(s: AppState)
    requires Inv(s)
    ensures Inv(DiscardQuote(s))
  {
  }

  /** The last rows of an intact list are the seed orders, in order. */
  lemma SeedRows(orders: seq<Order>)
    requires SeedOrdersIntact(orders)
    ensures forall i :: |orders| - |InitialOrders| <= i < |orders| ==>
      orders[i] == InitialOrders[i - (|orders| - |InitialOrders|)]
  {
  }

  /** An order that awaits authorization in a reachable state was placed by a client, so its id is no seed id. */
  lemma PendingIdIsNotSeedId(s: AppState, j: int)
    requires Inv(s)
    requires 0 <= j < |s.orders| && s.orders[j].status == PendingAuthorization
    ensures !HasId(InitialOrders, s.orders[j].id)
  {
  }

  /** Authorizing an id that no seed carries leaves the seed rows alone and keeps the client rows client rows. */
  lemma AuthorizeKeepsSeeds(orders: seq<Order>, id: string)
    requires SeedOrdersIntact(orders)
    requires !HasId(InitialOrders, id)
    ensures SeedOrdersIntact(Authorize(orders, id))
  {
    var r := Authorize(orders, id);
    var n, m := |orders|, |InitialOrders|;
    forall i | 0 <= i < m ensures r[n - m + i] == InitialOrders[i] {
      assert orders[n - m + i] == orders[n - m..][i] == InitialOrders[i];
    }
    assert r[n - m..] == InitialOrders;
    forall i | 0 <= i < n - m ensures IsClientOrder(r[i]) {
      assert IsClientOrder(orders[i]);
      var k: nat :| orders[i].id == OrderId(k);
      assert r[i].id == OrderId(k);
    }
  }

  lemma AuthorizePreservesInv(s: AppState, id: string)
    requires Inv(s)
    requires exists i :: 0 <= i < |s.orders| && s.orders[i].id == id && s.orders[i].status == PendingAuthorization
    ensures Inv(AuthorizeOrder(s, id))
  {
    var j :| 0 <= j < |s.orders| && s.orders[j].id == id && s.orders[j].status == PendingAuthorization;
    PendingIdIsNotSeedId(s, j);
    AuthorizeKeepsSeeds(s.orders, id);
  }

  /** Every event a view offers keeps the invariant. */
  lemma StepPreservesInv(s: AppState, e: Event)
    requires Inv(s) && Enabled(s, e)
    ensures Inv(Step(s, e))
  {
    match e
    case EditField(edit) => InputChangePreservesInv(s, edit);
    case PressCalculate => CalculatePreservesInv(s);
    case PressBuyNow => BuyNowPreservesInv(s);
    case OpenLogin => ShowLoginPreservesInv(s);
    case ReturnToLanding => BackToLandingPreservesInv(s);
    case ChooseRole(role) => LoginPreservesInv(s, role);
    case PressLogout => LogoutPreservesInv(s);
    case ConfirmQuote(k, date) => CreateOrderPreservesInv(s, k, date);
    case DiscardPending => DiscardPreservesInv(s);
    case PressAuthorize(id) => AuthorizePreservesInv(s, id);
  }

  lemma {:induction false} RunPreservesInv(s: AppState, events: seq<Event>)
    requires Inv(s) && EnabledRun(s, events)
    ensures Inv(Run(s, events))
    decreases |events|
  {
    if events != [] {
      StepPreservesInv(s, events[0]);
      RunPreservesInv(Step(s, events[0]), events[1..]);
    }
  }

  /**
   * Every state reachable through the rendered views: a dashboard is shown exactly when the
   * matching mock user is signed in, a shown estimate belongs to the current cargo type and
   * last-mile flag and is a positive ordered range, a pending quote has a positive price, and
   * the seed orders are still the unchanged tail of the list.
   */
  lemma ReachableStatesSatisfyInv(events: seq<Event>)
    requires EnabledRun(Init, events)
    ensures Inv(Run(Init, events))
  {
    InitSatisfiesInv();
    RunPreservesInv(Init, events);
  }

  // ---------------------------------------------------------------------------------------
  // The order list over time
  // ---------------------------------------------------------------------------------------

  lemma HistoryExtendsReflexive(orders: seq<Order>)
    ensures HistoryExtends(orders, orders)
  {
  }

  lemma HistoryExtendsTransitive(a: seq<Order>, b: seq<Order>, c: seq<Order>)
    requires HistoryExtends(a, b) && HistoryExtends(b, c)
    ensures HistoryExtends(a, c)
  {
  }

  /** No handler removes or reorders an order: the old list is the tail of the new one, up to authorizations. */
  lemma StepExtendsHistory(s: AppState, e: Event)
    ensures HistoryExtends(s.orders, Step(s, e).orders)
  {
    var r := Step(s, e);
    match e
    case ConfirmQuote(k, date) =>
      CreateOrderKeepsRows(s, k, date);
      AdvancesIsExtends(s.orders, r.orders);
    case _ =>
  }

  lemma AdvancesIsExtends(older: seq<Order>, newer: seq<Order>)
    requires HistoryAdvances(older, newer)
    ensures HistoryExtends(older, newer)
  {
  }

  lemma {:induction false} RunExtendsHistory(s: AppState, events: seq<Event>)
    ensures HistoryExtends(s.orders, Run(s, events).orders)
    decreases |events|
  {
    if events == [] {
      HistoryExtendsReflexive(s.orders);
    } else {
      var next := Step(s, events[0]);
      StepExtendsHistory(s, events[0]);
      RunExtendsHistory(next, events[1..]);
      HistoryExtendsTransitive(s.orders, next.orders, Run(next, events[1..]).orders);
    }
  }

  lemma HistoryAdvancesTransitive(a: seq<Order>, b: seq<Order>, c: seq<Order>)
    requires HistoryAdvances(a, b) && HistoryAdvances(b, c)
    ensures HistoryAdvances(a, c)
  {
  }

  /** Placing an order keeps every old row as it was, behind the new one. */
  lemma CreateOrderKeepsRows(s: AppState, k: nat, date: string)
    ensures HistoryAdvances(s.orders, CreateOrder(s, k, date).orders)
  {
  }

  /** Authorizing a pending order's id in a reachable state only authorizes rows that were pending or already authorized. */
  lemma AuthorizeAdvancesRows(s: AppState, id: string)
    requires Inv(s)
    requires exists i :: 0 <= i < |s.orders| && s.orders[i].id == id && s.orders[i].status == PendingAuthorization
    ensures HistoryAdvances(s.orders, AuthorizeOrder(s, id).orders)
  {
    var r := AuthorizeOrder(s, id);
    var j :| 0 <= j < |s.orders| && s.orders[j].id == id && s.orders[j].status == PendingAuthorization;
    PendingIdIsNotSeedId(s, j);
    var n, m := |s.orders|, |InitialOrders|;
    SeedRows(s.orders);
    forall i | 0 <= i < n ensures RowAdvances(s.orders[i], r.orders[i]) {
      if s.orders[i].id == id {
        assert i < n - m by {
          assert forall t :: 0 <= t < m ==> InitialOrders[t].id != id;
        }
        assert IsClientOrder(s.orders[i]);
        if s.orders[i].status == Authorized {
          assert s.orders[i].(status := Authorized) == s.orders[i];
        }
      }
    }
  }

  /**
   * Through the rendered views a status only ever moves from awaiting authorization to
   * authorized: the button is offered only for a pending row, and its id belongs to no seed row,
   * so the in-route seed order is never rewritten.
   */
  lemma StepAdvancesHistory(s: AppState, e: Event)
    requires Inv(s) && Enabled(s, e)
    ensures HistoryAdvances(s.orders, Step(s, e).orders)
  {
    match e
    case ConfirmQuote(k, date) => CreateOrderKeepsRows(s, k, date);
    case PressAuthorize(id) => AuthorizeAdvancesRows(s, id);
    case _ =>
  }

  lemma {:induction false} RunAdvancesHistory(s: AppState, events: seq<Event>)
    requires Inv(s) && EnabledRun(s, events)
    ensures HistoryAdvances(s.orders, Run(s, events).orders)
    decreases |events|
  {
    if events != [] {
      var next := Step(s, events[0]);
      StepAdvancesHistory(s, events[0]);
      StepPreservesInv(s, events[0]);
      RunAdvancesHistory(next, events[1..]);
      HistoryAdvancesTransitive(s.orders, next.orders, Run(next, events[1..]).orders);
    }
  }

  // ---------------------------------------------------------------------------------------
  // Quotes, orders and the handlers as written
  // ---------------------------------------------------------------------------------------

  /**
   * A quote bought on the landing page survives sign-in as a client unchanged, and confirming
   * it books an order with exactly the quoted route, cargo, weight and price, in front of the
   * old orders.
   */
  lemma QuoteFidelity(s: AppState, k: nat, date: string)
    requires s.estimate.Some?
    ensures
      var atLogin := BuyNow(s);
      var signedIn := Login(atLogin, "client");
      var booked := CreateOrder(signedIn, k, date);
      && atLogin.view == LoginPrompt
      && signedIn.view == ClientDashboard
      && signedIn.pendingQuote == Some(Quote(s.form, s.estimate.value.min))
      && booked.orders[0]
         == Order(OrderId(k), ClientUser.name, s.form.origin, s.form.destination,
                  s.form.cargoType, s.form.weight, s.estimate.value.min, PendingAuthorization, date)
      && booked.orders[1..] == s.orders
      && booked.pendingQuote.None?
  {
  }

  /** Discarding the pending quote books nothing. */
  lemma DiscardBooksNothing(s: AppState)
    ensures DiscardQuote(s).orders == s.orders && DiscardQuote(s).pendingQuote.None?
  {
  }

  /** Pressing authorize twice for the same order is the same as pressing it once. */
  lemma AuthorizeOrderIdempotent(s: AppState, id: string)
    ensures AuthorizeOrder(AuthorizeOrder(s, id), id) == AuthorizeOrder(s, id)
  {
  }

  /**
   * Identifiers are not checked for uniqueness: two orders placed with the same random suffix
   * share an id, and authorizing one authorizes both.
   */
  lemma IdsMayRepeat(s: AppState, k: nat, date: string)
    requires s.user.Some?
    ensures
      var twice := CreateOrder(CreateOrder(s, k, date), k, date);
      var approved := AuthorizeOrder(twice, OrderId(k));
      && twice.orders[0].id == twice.orders[1].id
      && approved.orders[0].status == Authorized && approved.orders[1].status == Authorized
  {
  }

  /** The form of the stale-estimate scenario: dry cargo, 100 kg, no last mile. */
  const Dry100: FormData := EmptyForm.(cargoType := Dry, weight := "100")

  /** 100 kg of dry cargo: total 2000, band 1900 to 2100. */
  lemma Dry100Example()
    ensures EstimateOf(Dry100) == Success(PriceRange(1900, 2100))
  {
    Numeral.ExampleRenderings();
    EstimateOfWholeWeight(100, "100", Dry, false);
    DryBand100();
  }

  lemma DryBand100()
    ensures Band(Total(Dry, 100.0, false)) == PriceRange(1900, 2100)
  {
  }

  /** 1000 kg of dry cargo: total 12800, band 12160 to 13440. */
  lemma Dry1000Example()
    ensures EstimateOf(Dry100.(weight := "1000")) == Success(PriceRange(12160, 13440))
  {
    Numeral.ExampleRenderings();
    EstimateOfWholeWeight(1000, "1000", Dry, false);
    DryBand1000();
  }

  lemma DryBand1000()
    ensures Band(Total(Dry, 1000.0, false)) == PriceRange(12160, 13440)
  {
  }

  /**
   * handleBuyNow prices the quote with the estimate shown before the click, and a weight edit
   * does not discard that estimate: after any estimate, editing the weight and buying quotes the
   * new weight at the old estimate's minimum.
   */
  lemma WeightEditKeepsStalePrice(s: AppState, w: string)
    requires s.estimate.Some?
    ensures BuyNow(InputChange(s, SetWeight(w))).pendingQuote
         == Some(Quote(s.form.(weight := w), s.estimate.value.min))
  {
    WeightEditKeepsEstimate(s, w);
    var edited := s.(form := s.form.(weight := w));
    assert edited.estimate.Some? && edited.estimate.value.min == s.estimate.value.min;
  }

  /** A weight edit changes the weight field and nothing else, the estimate included. */
  lemma WeightEditKeepsEstimate(s: AppState, w: string)
    ensures InputChange(s, SetWeight(w)) == s.(form := s.form.(weight := w))
  {
  }

  /**
   * The stale price in figures: estimate 100 kg of dry cargo, change the weight to 1000, buy —
   * the quote says 1000 kg at the 100 kg price of 1900, where 1000 kg would be quoted from 12160.
   */
  lemma StaleWeightQuote()
    ensures
      var estimated := CalculateEstimate(Init.(form := Dry100));
      var bought := BuyNow(InputChange(estimated, SetWeight("1000")));
      && bought.pendingQuote == Some(Quote(Dry100.(weight := "1000"), 1900))
      && EstimateOf(Dry100.(weight := "1000")) == Success(PriceRange(12160, 13440))
  {
    Dry100Example();
    var estimated := CalculateEstimate(Init.(form := Dry100));
    assert estimated.estimate == Some(PriceRange(1900, 2100)) && estimated.form == Dry100;
    WeightEditKeepsStalePrice(estimated, "1000");
    Dry1000Example();
  }
}
