/**
 * The view/session/order state of the single-page app, as pure transitions: one function per
 * event handler, each taking the whole app state to the state after the handler's updates.
 * The `App` class in module AppComponent holds this state in fields and is specified by these
 * functions.
 */
module Session {
  import opened Base
  import opened Tariff
  import opened Orders

  datatype View = Landing | LoginPrompt | ClientDashboard | AdminDashboard

  datatype Role = Client | Admin

  /** The signed-in (mock) user. */
  datatype User = User(name: string, role: Role)

  const ClientUser: User := User("Cliente Demo S.A.", Client)
  const AdminUser: User := User("Administrador CargoFresh", Admin)

  /** The quote form's fields; `cargoType` is the form field named `type`. */
  datatype FormData = FormData(
    origin: string,
    destination: string,
    cargoType: string,
    presentation: string,
    weight: string,
    lastMile: bool)

  const EmptyForm: FormData := FormData("", "", "", "", "", false)

  datatype FieldName = Origin | Destination | CargoType | Presentation | Weight | LastMile

  /** What a field holds: text, or the checked state of the last-mile checkbox. */
  datatype FieldValue = Text(text: string) | Checked(on: bool)

  /** A change event of the form: which field, and its new text or checked state. */
  datatype FieldEdit =
    | SetOrigin(origin: string)
    | SetDestination(destination: string)
    | SetCargoType(cargoType: string)
    | SetPresentation(presentation: string)
    | SetWeight(weight: string)
    | SetLastMile(checked: bool)

  function EditedField(e: FieldEdit): FieldName {
    match e
    case SetOrigin(_) => Origin
    case SetDestination(_) => Destination
    case SetCargoType(_) => CargoType
    case SetPresentation(_) => Presentation
    case SetWeight(_) => Weight
    case SetLastMile(_) => LastMile
  }

  function EditedValue(e: FieldEdit): FieldValue {
    match e
    case SetOrigin(t) => Text(t)
    case SetDestination(t) => Text(t)
    case SetCargoType(t) => Text(t)
    case SetPresentation(t) => Text(t)
    case SetWeight(t) => Text(t)
    case SetLastMile(b) => Checked(b)
  }

  /** The field of the form with the given name. */
  function Get(f: FormData, n: FieldName): FieldValue {
    match n
    case Origin => Text(f.origin)
    case Destination => Text(f.destination)
    case CargoType => Text(f.cargoType)
    case Presentation => Text(f.presentation)
    case Weight => Text(f.weight)
    case LastMile => Checked(f.lastMile)
  }

  /** `{...prev, [name]: value}`: the named field takes the new value and no other field changes. */
  function ApplyEdit(f: FormData, e: FieldEdit): (r: FormData)
    ensures Get(r, EditedField(e)) == EditedValue(e)
    ensures forall n :: n != EditedField(e) ==> Get(r, n) == Get(f, n)
  {
    match e
    case SetOrigin(t) => f.(origin := t)
    case SetDestination(t) => f.(destination := t)
    case SetCargoType(t) => f.(cargoType := t)
    case SetPresentation(t) => f.(presentation := t)
    case SetWeight(t) => f.(weight := t)
    case SetLastMile(b) => f.(lastMile := b)
  }

  /** The fields whose change discards the shown estimate; weight and presentation are not among them. */
  predicate ClearsEstimate(n: FieldName) {
    n == CargoType || n == Origin || n == Destination || n == LastMile
  }

  /** A quote waiting for sign-in: a snapshot of the whole form plus the price it was quoted at. */
  datatype Quote = Quote(form: FormData, price: int)

  /** The app component's state. */
  datatype AppState = AppState(
    view: View,
    user: Option<User>,
    orders: seq<Order>,
    pendingQuote: Option<Quote>,
    form: FormData,
    estimate: Option<PriceRange>)

  const Init: AppState := AppState(Landing, None, InitialOrders, None, EmptyForm, None)

  /** The estimator applied to the form's weight, cargo type and last-mile choice. */
  function EstimateOf(form: FormData): Result<PriceRange, EstimateError> {
    Estimate(form.weight, form.cargoType, form.lastMile)
  }

  // ---------------------------------------------------------------------------------------
  // The handlers
  // ---------------------------------------------------------------------------------------

  /**
   * handleInputChange: only the edited field of the form changes; the estimate is discarded
   * exactly when the field is the cargo type, origin, destination or last-mile flag.
   */
  function InputChange(s: AppState, e: FieldEdit): (r: AppState)
    ensures Get(r.form, EditedField(e)) == EditedValue(e)
    ensures forall n :: n != EditedField(e) ==> Get(r.form, n) == Get(s.form, n)
    ensures r.estimate == (if ClearsEstimate(EditedField(e)) then None else s.estimate)
    ensures r.view == s.view && r.user == s.user && r.orders == s.orders && r.pendingQuote == s.pendingQuote
  {
    s.(form := ApplyEdit(s.form, e),
       estimate := if ClearsEstimate(EditedField(e)) then None else s.estimate)
  }

  /**
   * calculateEstimate: an accepted form replaces the estimate by the estimator's range; a
   * rejected one (the alert paths) leaves the whole state as it was.
   */
  function CalculateEstimate(s: AppState): (r: AppState)
    ensures EstimateOf(s.form).Success? ==> r.estimate == Some(EstimateOf(s.form).value)
    ensures EstimateOf(s.form).Failure? ==> r == s
    ensures r.(estimate := s.estimate) == s
  {
    match EstimateOf(s.form)
    case Success(range) => s.(estimate := Some(range))
    case Failure(_) => s
  }

  /**
   * handleBuyNow: recomputes the estimate, but decides on the estimate held BEFORE the call
   * (the state read inside the handler is the one it started with). Only if one existed does it
   * store the current form with that estimate's minimum as the pending quote and open the login
   * view; otherwise view and pending quote stay as they were.
   */
  function BuyNow(s: AppState): (r: AppState)
    ensures r.estimate == CalculateEstimate(s).estimate
    ensures r.pendingQuote == (if s.estimate.Some? then Some(Quote(s.form, s.estimate.value.min)) else s.pendingQuote)
    ensures r.view == (if s.estimate.Some? then LoginPrompt else s.view)
    ensures r.user == s.user && r.orders == s.orders && r.form == s.form
  {
    var recalculated := CalculateEstimate(s);
    if s.estimate.Some? then
      recalculated.(pendingQuote := Some(Quote(s.form, s.estimate.value.min)), view := LoginPrompt)
    else recalculated
  }

  /** The "client access" buttons of the landing page: only the view changes. */
  function ShowLogin(s: AppState): (r: AppState)
    ensures r.view == LoginPrompt && r.(view := s.view) == s
  {
    s.(view := LoginPrompt)
  }

  /** The "back to the main page" link of the login view: only the view changes. */
  function BackToLanding(s: AppState): (r: AppState)
    ensures r.view == Landing && r.(view := s.view) == s
  {
    s.(view := Landing)
  }

  /**
   * handleLogin: the role "client" signs in the demo client and opens the client dashboard;
   * any other role signs in the administrator and opens the admin dashboard. The pending quote,
   * the orders, the form and the estimate are untouched.
   */
  function Login(s: AppState, role: string): (r: AppState)
    ensures role == "client" ==> r.user == Some(ClientUser) && r.view == ClientDashboard
    ensures role != "client" ==> r.user == Some(AdminUser) && r.view == AdminDashboard
    ensures r.pendingQuote == s.pendingQuote && r.orders == s.orders
    ensures r.form == s.form && r.estimate == s.estimate
  {
    if role == "client" then s.(user := Some(ClientUser), view := ClientDashboard)
    else s.(user := Some(AdminUser), view := AdminDashboard)
  }

  /** handleLogout: signs out, returns to the landing view and drops any pending quote; the orders, form and estimate stay. */
  function Logout(s: AppState): (r: AppState)
    ensures r.user.None? && r.view == Landing && r.pendingQuote.None?
    ensures r.orders == s.orders && r.form == s.form && r.estimate == s.estimate
  {
    s.(user := None, view := Landing, pendingQuote := None)
  }

  /** The order's route, cargo, weight and price are the given form's and price. */
  predicate Books(o: Order, form: FormData, price: int) {
    o.origin == form.origin && o.dest == form.destination && o.cargoType == form.cargoType
    && o.weight == form.weight && o.price == price
  }

  /**
   * The order handleCreateOrder builds: route, cargo, weight and price from the pending quote if
   * there is one, otherwise from the form and the estimate's minimum (0 without an estimate).
   */
  function NewOrder(s: AppState, k: nat, date: string): Order
    requires s.user.Some?
  {
    var q := s.pendingQuote;
    Order(
      OrderId(k),
      s.user.value.name,
      if q.Some? then q.value.form.origin else s.form.origin,
      if q.Some? then q.value.form.destination else s.form.destination,
      if q.Some? then q.value.form.cargoType else s.form.cargoType,
      if q.Some? then q.value.form.weight else s.form.weight,
      if q.Some? then q.value.price else if s.estimate.Some? then s.estimate.value.min else 0,
      PendingAuthorization,
      date)
  }

  /**
   * handleCreateOrder with random suffix `k` and today's date `date`: puts exactly one new
   * order, awaiting authorization, in front of the unchanged old ones and drops the pending
   * quote. Without a signed-in user, reading `user.name` throws before any update, so nothing
   * changes.
   */
  function CreateOrder(s: AppState, k: nat, date: string): (r: AppState)
    ensures s.user.None? ==> r == s
    ensures s.user.Some? ==>
      && |r.orders| == |s.orders| + 1 && r.orders[1..] == s.orders
      && r.orders[0].id == OrderId(k) && r.orders[0].client == s.user.value.name
      && r.orders[0].status == PendingAuthorization && r.orders[0].date == date
      && r.pendingQuote.None?
      && r.view == s.view && r.user == s.user && r.form == s.form && r.estimate == s.estimate
    ensures s.user.Some? && s.pendingQuote.Some? ==>
      Books(r.orders[0], s.pendingQuote.value.form, s.pendingQuote.value.price)
    ensures s.user.Some? && s.pendingQuote.None? ==>
      Books(r.orders[0], s.form, if s.estimate.Some? then s.estimate.value.min else 0)
  {
    if s.user.None? then s
    else s.(orders := [NewOrder(s, k, date)] + s.orders, pendingQuote := None)
  }

  /** The "discard" button of the pending-quote banner: drops the quote and nothing else. */
  function DiscardQuote(s: AppState): (r: AppState)
    ensures r.pendingQuote.None? && r.(pendingQuote := s.pendingQuote) == s
  {
    s.(pendingQuote := None)
  }

  /** handleAuthorizeOrder: the order list is rewritten by Orders.Authorize; nothing else changes. */
  function AuthorizeOrder(s: AppState, id: string): (r: AppState)
    ensures |r.orders| == |s.orders|
    ensures forall i :: 0 <= i < |s.orders| ==>
      r.orders[i] == (if s.orders[i].id == id then s.orders[i].(status := Authorized) else s.orders[i])
    ensures r.(orders := s.orders) == s
  {
    s.(orders := Authorize(s.orders, id))
  }

  // ---------------------------------------------------------------------------------------
  // Events, and which of them the rendered views offer
  // ---------------------------------------------------------------------------------------

  /** Everything the user can do that reaches one of the handlers. */
  datatype Event =
    | EditField(edit: FieldEdit)
    | PressCalculate
    | PressBuyNow
    | OpenLogin
    | ReturnToLanding
    | ChooseRole(role: string)
    | PressLogout
    | ConfirmQuote(suffix: nat, date: string)
    | DiscardPending
    | PressAuthorize(id: string)

  function Step(s: AppState, e: Event): AppState {
    match e
    case EditField(edit) => InputChange(s, edit)
    case PressCalculate => CalculateEstimate(s)
    case PressBuyNow => BuyNow(s)
    case OpenLogin => ShowLogin(s)
    case ReturnToLanding => BackToLanding(s)
    case ChooseRole(role) => Login(s, role)
    case PressLogout => Logout(s)
    case ConfirmQuote(k, date) => CreateOrder(s, k, date)
    case DiscardPending => DiscardQuote(s)
    case PressAuthorize(id) => AuthorizeOrder(s, id)
  }

  /**
   * Whether the current view renders the control that raises the event: the form, the estimate
   * button and the access buttons on the landing page (the buy-now button only while an estimate
   * is shown); the role buttons and the back link on the login view; logout on both dashboards;
   * confirm and discard in the client dashboard's pending-quote banner; an authorize button on
   * each admin row whose order awaits authorization. Suffixes are drawn below IdSuffixBound.
   */
  predicate Enabled(s: AppState, e: Event) {
    match e
    case EditField(_) => s.view == Landing
    case PressCalculate => s.view == Landing
    case PressBuyNow => s.view == Landing && s.estimate.Some?
    case OpenLogin => s.view == Landing
    case ReturnToLanding => s.view == LoginPrompt
    case ChooseRole(role) => s.view == LoginPrompt && (role == "client" || role == "admin")
    case PressLogout => s.view == ClientDashboard || s.view == AdminDashboard
    case ConfirmQuote(k, _) => s.view == ClientDashboard && s.pendingQuote.Some? && k < IdSuffixBound
    case DiscardPending => s.view == ClientDashboard && s.pendingQuote.Some?
    case PressAuthorize(id) =>
      s.view == AdminDashboard
      && exists i :: 0 <= i < |s.orders| && s.orders[i].id == id && s.orders[i].status == PendingAuthorization
  }

  /** The state after the events, applied in order. */
  function Run(s: AppState, events: seq<Event>): AppState
    decreases |events|
  {
    if events == [] then s else Run(Step(s, events[0]), events[1..])
  }

  /** Each event is offered by the state it is applied to. */
  predicate EnabledRun(s: AppState, events: seq<Event>)
    decreases |events|
  {
    events == [] || (Enabled(s, events[0]) && EnabledRun(Step(s, events[0]), events[1..]))
  }

  // ---------------------------------------------------------------------------------------
  // Invariant of the states the rendered views can reach
  // ---------------------------------------------------------------------------------------

  /** The shown estimate is the estimator's range for the current cargo type and last-mile flag at some weight (the weight may have been edited since). */
  ghost predicate EstimateMatchesForm(s: AppState) {
    s.estimate.Some? ==>
      exists w :: Estimate(w, s.form.cargoType, s.form.lastMile) == Success(s.estimate.value)
  }

  /** An order placed through the dashboard: a generated identifier, never in route. */
  ghost predicate IsClientOrder(o: Order) {
    (exists k: nat :: o.id == OrderId(k)) && o.status != InRoute
  }

  /** The seed orders are still the list's last rows, unchanged, and every row before them was placed by a client. */
  ghost predicate SeedOrdersIntact(orders: seq<Order>) {
    && |orders| >= |InitialOrders|
    && orders[|orders| - |InitialOrders|..] == InitialOrders
    && forall i :: 0 <= i < |orders| - |InitialOrders| ==> IsClientOrder(orders[i])
  }

  ghost predicate Inv(s: AppState) {
    && (s.view == ClientDashboard <==> s.user == Some(ClientUser))
    && (s.view == AdminDashboard <==> s.user == Some(AdminUser))
    && (s.user.Some? ==> s.user == Some(ClientUser) || s.user == Some(AdminUser))
    && EstimateMatchesForm(s)
    && (s.estimate.Some? ==> 0 < s.estimate.value.min <= s.estimate.value.max)
    && (s.pendingQuote.Some? ==> s.pendingQuote.value.price > 0)
    && SeedOrdersIntact(s.orders)
  }

  /** A row is kept, or (only) its status becomes Authorized. */
  predicate RowEvolves(a: Order, b: Order) {
    b == a || b == a.(status := Authorized)
  }

  /** A row is kept, or it awaited authorization and is now authorized. */
  predicate RowAdvances(a: Order, b: Order) {
    b == a || (a.status == PendingAuthorization && b == a.(status := Authorized))
  }

  /** The older list is the tail of the newer one, up to status changes to Authorized. */
  predicate HistoryExtends(older: seq<Order>, newer: seq<Order>) {
    |older| <= |newer|
    && forall i :: 0 <= i < |older| ==> RowEvolves(older[i], newer[|newer| - |older| + i])
  }

  /** The older list is the tail of the newer one, up to authorizations of orders that awaited one. */
  predicate HistoryAdvances(older: seq<Order>, newer: seq<Order>) {
    |older| <= |newer|
    && forall i :: 0 <= i < |older| ==> RowAdvances(older[i], newer[|newer| - |older| + i])
  }
}
