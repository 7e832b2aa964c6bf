/**
 * The top-level app component: its six pieces of state as fields, and its handlers as methods
 * that update them. Each method is specified by the Session transition of the same handler,
 * so everything proved about those transitions holds of the component.
 */
module AppComponent {
  import opened Base
  import opened Tariff
  import opened Orders
  import opened Session
  import SessionProperties

  class App {
    var currentView: View
    var user: Option<User>
    var orders: seq<Order>
    var pendingQuote: Option<Quote>
    var formData: FormData
    var estimatedPrice: Option<PriceRange>

    /** The component state as a value. */
    function State(): AppState
      reads this
    {
      AppState(currentView, user, orders, pendingQuote, formData, estimatedPrice)
    }

    /** The initial state: landing view, nobody signed in, the seed orders, an empty form. */
    constructor ()
      ensures State() == Init
      ensures Inv(State())
    {
      currentView := Landing;
      user := None;
      orders := InitialOrders;
      pendingQuote := None;
      formData := EmptyForm;
      estimatedPrice := None;
      assert InitialOrders[|InitialOrders| - |InitialOrders|..] == InitialOrders;
    }

    method HandleInputChange(edit: FieldEdit)
      modifies this
      ensures State() == InputChange(old(State()), edit)
    {
      formData := ApplyEdit(formData, edit);
      if ClearsEstimate(EditedField(edit)) {
        estimatedPrice := None;
      }
    }

    /**
     * calculateEstimate: returns the estimator's verdict (a range, or which validation alert is
     * shown) and stores an accepted range as the estimate.
     */
    method CalculateEstimate() returns (outcome: Result<PriceRange, EstimateError>)
      modifies this
      ensures outcome == EstimateOf(old(formData))
      ensures State() == Session.CalculateEstimate(old(State()))
    {
      outcome := Estimate(formData.weight, formData.cargoType, formData.lastMile);
      if outcome.Success? {
        estimatedPrice := Some(outcome.value);
      }
    }

    /** handleBuyNow: the estimate it decides on is read before its own recalculation. */
    method HandleBuyNow()
      modifies this
      ensures State() == BuyNow(old(State()))
    {
      var shown := estimatedPrice;
      var _ := CalculateEstimate();
      if shown.Some? {
        pendingQuote := Some(Quote(formData, shown.value.min));
        currentView := LoginPrompt;
      }
    }

    /** The landing page's access buttons. */
    method OpenLogin()
      modifies this
      ensures State() == ShowLogin(old(State()))
    {
      currentView := LoginPrompt;
    }

    /** The login view's link back to the landing page. */
    method ReturnToLanding()
      modifies this
      ensures State() == BackToLanding(old(State()))
    {
      currentView := Landing;
    }

    method HandleLogin(role: string)
      modifies this
      ensures State() == Login(old(State()), role)
    {
      if role == "client" {
        user := Some(ClientUser);
        currentView := ClientDashboard;
      } else {
        user := Some(AdminUser);
        currentView := AdminDashboard;
      }
    }

    method HandleLogout()
      modifies this
      ensures State() == Logout(old(State()))
    {
      user := None;
      currentView := Landing;
      pendingQuote := None;
    }

    /**
     * handleCreateOrder with random suffix `k` and date `date`; `created` is false when no user
     * is signed in, where the handler throws before changing anything.
     */
    method HandleCreateOrder(k: nat, date: string) returns (created: bool)
      modifies this
      ensures created == old(user).Some?
      ensures State() == CreateOrder(old(State()), k, date)
    {
      if user.None? {
        return false;
      }
      var newOrder := NewOrder(State(), k, date);
      orders := [newOrder] + orders;
      pendingQuote := None;
      created := true;
    }

    /** The pending-quote banner's discard button. */
    method DiscardPendingQuote()
      modifies this
      ensures State() == DiscardQuote(old(State()))
    {
      pendingQuote := None;
    }

    method HandleAuthorizeOrder(id: string)
      modifies this
      ensures State() == AuthorizeOrder(old(State()), id)
    {
      orders := Authorize(orders, id);
    }

    /**
     * Routes a user action to its handler, as the rendered views wire them; an action the
     * current view offers keeps the invariant of reachable states.
     */
    method Dispatch(e: Event)
      modifies this
      ensures State() == Step(old(State()), e)
      ensures Inv(old(State())) && Enabled(old(State()), e) ==> Inv(State())
    {
      ghost var before := State();
      match e {
        case EditField(edit) => HandleInputChange(edit);
        case PressCalculate => var _ := CalculateEstimate();
        case PressBuyNow => HandleBuyNow();
        case OpenLogin => OpenLogin();
        case ReturnToLanding => ReturnToLanding();
        case ChooseRole(role) => HandleLogin(role);
        case PressLogout => HandleLogout();
        case ConfirmQuote(k, date) => var _ := HandleCreateOrder(k, date);
        case DiscardPending => DiscardPendingQuote();
        case PressAuthorize(id) => HandleAuthorizeOrder(id);
      }
      if Inv(before) && Enabled(before, e) {
        SessionProperties.StepPreservesInv(before, e);
      }
    }
  }
}
