# Cargo Fresh quoting and ordering — a Dafny model

This project models the quoting and ordering logic of the Cargo Fresh web app's top-level
`App` component (`src/App.jsx`). It covers two parts.

* **The tariff estimator** (`calculateEstimate` with the `TARIFF_RATES` table). It validates the
  weight and cargo-type fields and reads the weight with a decimal comma accepted. The total is
  800 + 12·kg. The total is scaled by 1.25 for `Congelado` or 1.10 for `Fresco`. A flat 450 is
  added for last-mile delivery. The result is the range round(0.95·total) to round(1.05·total).
* **The view/session/order state machine**. Its state is the current view (landing, login,
  client dashboard, admin dashboard), the mock user, the order list, the pending quote, the
  quote form and the shown estimate. Its handlers are form edits, estimate, buy now,
  login/logout, confirm or discard the pending quote, and authorize an order.

Layout:

* `base.dfy` (module `Base`): `Option` and `Result`.
* `numeral.dfy` (module `Numeral`): the JavaScript text primitives the estimator relies on.
  These are `replace` with a one-character pattern, `parseFloat` as a longest-prefix reader,
  and `${n}` rendering of a whole number.
* `tariff.dfy` (module `Tariff`): the rate table, the total, `Math.round` as round-half-up and
  the estimator. Weights and prices are exact rationals: the multipliers are 5/4 and 11/10, and
  the band factors are 19/20 and 21/20.
* `orders.dfy` (module `Orders`): order rows, the two seed orders, generated ids and the
  authorization rewrite.
* `session.dfy` (module `Session`): one pure transition function per handler over the whole
  app state. It also defines the user actions (`Event`), the actions each rendered view offers
  (`Enabled`), and the invariant of reachable states (`Inv`).
* `session_properties.dfy` (module `SessionProperties`): lemmas about the transitions.
* `app.dfy` (module `AppComponent`): class `App`. It holds the six pieces of component state
  as fields. Its handler methods are specified by the `Session` transitions.

Two behaviours of the code are modelled as written:

* `handleBuyNow` decides on the estimate that existed **before** its own recalculation, because
  the state read inside a React handler is the state the handler started with. A weight edit
  does not discard the estimate. So a quote can carry a new weight priced with an old estimate
  (`SessionProperties.WeightEditKeepsStalePrice`, `SessionProperties.StaleWeightQuote`).
* `handleAuthorizeOrder` sets "Autorizado" on every row whose id matches, whatever its status
  (`Orders.AuthorizeOverridesInRoute`). Through the rendered views this never touches a row
  that is not pending (`SessionProperties.StepAdvancesHistory`). The authorize button appears
  only on pending rows, and a generated id never equals a seed id.

Nondeterministic inputs are parameters. The random id suffix is `k`, from
`Math.floor(Math.random() * 10000)`, and the id is `"ORD-" + k` in decimal. Today's date is
`date`. Nothing checks that ids are unique (`SessionProperties.IdsMayRepeat`).

In these places the code departs from what its screens suggest; the model follows the code:

* Authorization does not look at the current status.
* A weight change keeps the estimate.
* Any login role other than `"client"` signs in the administrator.
* The cargo-type check accepts any non-empty text. A type other than `Congelado` or `Fresco` is
  priced like `Seco`.
* `handleCreateOrder` without a signed-in user throws on `user.name` before any state update.
  The model leaves the state unchanged in that case.

## Model

| member | source | states |
|---|---|---|
| `Numeral.ReplaceFirst` | src/App.jsx:847 | `replace(',', '.')` rewrites only the first comma: every position keeps its character except the first occurrence |
| `Numeral.ReplaceFirstAbsent` | src/App.jsx:847 | text without a comma is left unchanged |
| `Numeral.ReplaceFirstOccurrence` | src/App.jsx:847 | the first comma becomes a point and the rest of the text is kept as it is |
| `Numeral.TrimStart` | src/App.jsx:848 | `parseFloat` skips exactly the leading JavaScript white space |
| `Numeral.LeadingDigits` | src/App.jsx:848 | the digit run `parseFloat` reads is maximal: all digits, followed by a non-digit or the end |
| `Numeral.ScanMantissa` | src/App.jsx:848 | the whole part is the maximal leading digit run; a point right after it opens the maximal fraction run, otherwise the fraction is empty; whole, point, fraction and tail put back together give the text, and the tail does not start with a digit |
| `Numeral.ExponentScale` | src/App.jsx:848 | the factor of an exponent suffix is positive, and it is exactly 1 when the text after the mantissa does not start with `e` or `E`; its value for each form of suffix is stated by `Numeral.ExponentUp`, `Numeral.ExponentDown` and `Numeral.ExponentWithoutDigits` |
| `Numeral.PowerOfDigits` | src/App.jsx:848 | the power of ten named by the digits of an exponent is at least 1 (1 when no digit follows) |
| `Numeral.PowerOfRun` | src/App.jsx:848 | an exponent digit run `ds` followed by text that cannot continue it names 10^ds |
| `Numeral.ScaleAfterMarker` | src/App.jsx:848 | after `e` or `E`, a minus sign divides by the named power of ten, a plus sign or no sign multiplies by it |
| `Numeral.ExponentUp` | src/App.jsx:848 | `e` or `E`, an optional `+`, then digits `ds`: the mantissa is multiplied by exactly 10^ds |
| `Numeral.ExponentDown` | src/App.jsx:848 | `e` or `E`, `-`, then digits `ds`: the mantissa is divided by exactly 10^ds |
| `Numeral.ScaleAfterMinus` | src/App.jsx:848 | after `e-` or `E-`, the factor is the reciprocal of the power of ten the following digits name |
| `Numeral.ExponentWithoutDigits` | src/App.jsx:848 | `e` or `E` (with or without a sign) not followed by a digit is not part of the number: the factor is 1 |
| `Numeral.ScaleThousand` | src/App.jsx:848 | the suffix "e3" multiplies by 1000 |
| `Numeral.ScaleThousandth` | src/App.jsx:848 | the suffix "e-3" divides by 1000 |
| `Numeral.ScaleBareMarker` | src/App.jsx:848 | a bare "e" leaves the mantissa unchanged |
| `Numeral.Scaled` | src/App.jsx:848 | definition, no contract: a mantissa value times the factor of the suffix after it |
| `Numeral.ScaledByOne` | src/App.jsx:848 | text that does not start with `e` or `E` leaves the mantissa value unchanged |
| `Numeral.ParseScaled` | src/App.jsx:848 | a mantissa with at least one whole digit is read as its value times the factor of the text after it |
| `Numeral.ScientificUnsigned` | src/App.jsx:848 | the unsigned read of digits `ds` followed by an exponent suffix is ds times the suffix's factor |
| `Numeral.ParseScientific` | src/App.jsx:848 | `parseFloat` of digits `ds` followed by `e` or `E` and anything is ds times the factor of that suffix |
| `Numeral.IsJsWhitespace` | src/App.jsx:848 | definition, no contract: the ECMAScript white-space and line-terminator characters that `parseFloat` skips |
| `Numeral.LeadingDigitsOfRun` | src/App.jsx:848 | a digit run followed by text that does not start with a digit is read exactly to its end |
| `Numeral.MantissaValue` | src/App.jsx:848 | definition, no contract: whole + fraction / 10^(fraction length); its values are stated by `Numeral.ParseDecimal` and `Numeral.WholeMantissaValue` |
| `Numeral.ParseFloat` | src/App.jsx:848 | definition, no contract: skip leading white space, then the signed read; what it returns is stated by `Numeral.ParseDecimal`, `Numeral.ParseScientific`, `Numeral.ParseNatPrefix`, `Numeral.ParseNegativeNat` and `Tariff.NonNumericWeightRejected` |
| `Numeral.ParseSigned` | src/App.jsx:848 | definition, no contract: an optional sign, then the unsigned read; the minus case is stated by `Numeral.ParseSignedMinus` |
| `Numeral.ParseUnsigned` | src/App.jsx:848 | definition, no contract: NaN when the mantissa has no digit, otherwise the mantissa's value times the exponent factor; stated by `Numeral.ParseWithoutExponent` and `Numeral.ParseWholeRun` |
| `Numeral.TrimStartNonBlank` | src/App.jsx:848 | text that does not start with white space is not trimmed |
| `Numeral.ParseSignedMinus` | src/App.jsx:848 | a leading minus negates the unsigned number read after it, and NaN stays NaN |
| `Numeral.SignedMinusOf` | src/App.jsx:848 | a minus sign before text the unsigned reader reads as x gives -x |
| `Numeral.ParseMinus` | src/App.jsx:848 | `parseFloat("-" + d)` is the negation of the unsigned read of d, for text d that starts with a digit |
| `Numeral.ParseNegativeNat` | src/App.jsx:848 | `parseFloat` reads "-" followed by a rendered whole number as its negation |
| `Numeral.ParseUnsignedNat` | src/App.jsx:848 | the unsigned read of a rendered whole number is the number |
| `Numeral.ParseWholeRun` | src/App.jsx:848 | a digit run followed by text that cannot continue a number is read as the run's value |
| `Numeral.WholeMantissaValue` | src/App.jsx:848 | a mantissa with no fraction digits is worth its whole part |
| `Numeral.ParseFromDigit` | src/App.jsx:848 | text that starts with a digit is read from its first character |
| `Numeral.UnsignedWhenNoSign` | src/App.jsx:848 | text that does not start with `+` or `-` goes to the unsigned reader unchanged |
| `Numeral.ParseWithoutExponent` | src/App.jsx:848 | a number with no exponent suffix is read as the exact value of its mantissa |
| `Numeral.ScanDecimal` | src/App.jsx:848 | the scan of `a.b` yields whole part `a`, fraction `b` and nothing after |
| `Numeral.ScanWhole` | src/App.jsx:848 | the scan of a digit run stops where the digits stop |
| `Numeral.ParseDecimal` | src/App.jsx:848 | `parseFloat("a.b")` is the exact rational a + b/10^len(b) |
| `Numeral.ParseNatPrefix` | src/App.jsx:848 | `parseFloat` reads a rendered whole number as itself, ignoring trailing text such as "kg" |
| `Numeral.NatToString` | src/App.jsx:873 | `${n}` is a non-empty digit string with no leading zero, except "0" itself |
| `Numeral.NatToStringValue` | src/App.jsx:873 | reading the rendered digits back gives the number |
| `Numeral.NatToStringInjective` | src/App.jsx:873 | different numbers render differently |
| `Numeral.ExampleRenderings` | src/App.jsx:873 | 0, 5, 100, 200, 500 and 1000 render as "0", "5", "100", "200", "500" and "1000" |
| `Numeral.DigitsValue` | src/App.jsx:848 | a run of k digits denotes a number below 10^k |
| `Tariff.BaseCost` | src/App.jsx:17 | constant, no contract: base cost 800 |
| `Tariff.PerKg` | src/App.jsx:18 | constant, no contract: 12 per kilogram |
| `Tariff.FrozenMultiplier` | src/App.jsx:19 | constant, no contract: frozen multiplier 1.25 |
| `Tariff.FreshMultiplier` | src/App.jsx:20 | constant, no contract: fresh multiplier 1.10 |
| `Tariff.DryMultiplier` | src/App.jsx:21 | constant, no contract: dry multiplier 1.0, which the estimator never reads |
| `Tariff.LastMileCost` | src/App.jsx:22 | constant, no contract: last-mile surcharge 450 |
| `Tariff.FrequentClientDiscount` | src/App.jsx:23 | constant, no contract: discount 0.15, which no code applies |
| `Tariff.ParseWeight` | src/App.jsx:847-848 | definition, no contract: the first comma becomes a point, then `parseFloat`; stated by `Tariff.DecimalCommaAccepted`, `Tariff.WholeWeight`, `Tariff.NegativeWeightRejected` and `Tariff.NonNumericWeightRejected` |
| `Tariff.IsPositive` | src/App.jsx:849 | definition, no contract: the weight is a number (not NaN) and above 0 |
| `Tariff.Band` | src/App.jsx:857-858 | definition, no contract: round(0.95·total) to round(1.05·total); ordered by `Tariff.BandIsOrdered`, bounds stated by `Tariff.Estimate` |
| `Tariff.RoundHalfUp` | src/App.jsx:857-858 | `Math.round` gives the integer within one half of its argument, halves going up |
| `Tariff.RoundingIsMonotone` | src/App.jsx:857-858 | rounding preserves order |
| `Tariff.Total` | src/App.jsx:853-856 | for a positive weight the total exceeds the 800 base cost |
| `Tariff.AtMostOneMultiplier` | src/App.jsx:853-856 | frozen cargo is scaled by 1.25 and fresh cargo by 1.10, never both; any other type is priced as dry; the surcharge comes after scaling |
| `Tariff.LastMileIsFlat` | src/App.jsx:856 | last mile adds exactly 450, whatever the cargo type and weight |
| `Tariff.CargoTypeOrdering` | src/App.jsx:16-22 | at any non-negative weight, dry ≤ fresh ≤ frozen |
| `Tariff.HeavierCostsMore` | src/App.jsx:853-858 | a heavier shipment never gets a lower total, minimum or maximum |
| `Tariff.BandIsOrdered` | src/App.jsx:857-858 | above the base cost, 0 < min ≤ max |
| `Tariff.Estimate` | src/App.jsx:841-860 | missing weight or type gives the first alert exactly when either is empty; an unreadable or non-positive weight gives the second alert exactly when it applies; otherwise 0 < min ≤ max, each the nearest integer to 95% / 105% of the total |
| `Tariff.DecimalCommaAccepted` | src/App.jsx:847-848 | "a,b" reads exactly like "a.b", as the rational a.b |
| `Tariff.WholeWeight` | src/App.jsx:847-848 | a whole-number weight text reads as that number |
| `Tariff.EstimateOfWholeWeight` | src/App.jsx:841-860 | a whole-number weight is priced at exactly that many kilograms |
| `Tariff.FrozenExample` | src/App.jsx:853-859 | Congelado, 500 kg: 8075 to 8925 |
| `Tariff.FreshExample` | src/App.jsx:853-859 | Fresco, 200 kg: 3344 to 3696 |
| `Tariff.FrozenBand` | src/App.jsx:853-858 | Congelado, 500 kg: total 8500, band 8075 to 8925 |
| `Tariff.FreshBand` | src/App.jsx:853-858 | Fresco, 200 kg: total 3520, band 3344 to 3696 |
| `Tariff.NonNumericWeightRejected` | src/App.jsx:847-852 | a weight starting with anything but a digit, sign, point, comma or white space, other than one starting with the word `Infinity`, reads as NaN, and the invalid-weight alert fires |
| `Tariff.NegativeWeightRejected` | src/App.jsx:847-852 | a negative whole weight is read as that negative number, and the invalid-weight alert fires |
| `Tariff.ZeroWeightRejected` | src/App.jsx:847-852 | the weight "0" raises the invalid-weight alert |
| `Tariff.MinusFiveRejected` | src/App.jsx:847-852 | the weight "-5" raises the invalid-weight alert |
| `Tariff.RejectedWeights` | src/App.jsx:842-852 | "0", "-5" and "abc" raise the invalid-weight alert; an empty weight raises the missing-field alert |
| `Tariff.MantissaExample` | src/App.jsx:848 | the digits 150 and 5 around the separator denote 150.5 |
| `Tariff.CommaWeightExample` | src/App.jsx:847-848 | "150,5" and "150.5" both read as 150.5 |
| `Tariff.CommaExample` | src/App.jsx:841-860 | "150,5" and "150.5" get the same estimate |
| `Orders.InitialOrders` | src/App.jsx:27-30 | constant, no contract: the two seed orders, ORD-001 (Congelado, 500 kg, 6800, Autorizado) and ORD-002 (Fresco, 200 kg, 3200, En Ruta) |
| `Orders.HasId` | src/App.jsx:889 | definition, no contract: some row carries the id |
| `Orders.Approve` | src/App.jsx:889 | definition, no contract: the `map` callback, which sets Autorizado on a row with the id and keeps any other row |
| `Orders.IdSuffixBound` | src/App.jsx:873 | constant, no contract: the random suffix is `Math.floor(Math.random() * 10000)`, so it lies below 10000 |
| `Orders.OrderId` | src/App.jsx:873 | a new id is "ORD-" followed by the rendered suffix |
| `Orders.OrderIdInjective` | src/App.jsx:873 | different suffixes give different ids |
| `Orders.NewIdIsNotSeedId` | src/App.jsx:873 | a generated id never equals "ORD-001" or "ORD-002", because seed suffixes have leading zeros |
| `Orders.Authorize` | src/App.jsx:888-890 | same length and order; every row with the id becomes Autorizado with its other fields kept; every other row is unchanged |
| `Orders.AuthorizeUnknownId` | src/App.jsx:889 | an id no row carries is a no-op |
| `Orders.AuthorizeIdempotent` | src/App.jsx:889 | authorizing twice equals authorizing once |
| `Orders.AuthorizeCommutes` | src/App.jsx:889 | authorizations of two ids commute |
| `Orders.AuthorizeOverridesInRoute` | src/App.jsx:889 | the rewrite ignores status: the in-route seed order becomes authorized |
| `Session.Init` | src/App.jsx:805-810 | constant, no contract: landing view, no user, the seed orders, no pending quote, an empty form, no estimate |
| `Session.EmptyForm` | src/App.jsx:809 | constant, no contract: every text field of the quote form is empty and the last-mile box is unchecked |
| `Session.ClientUser` | src/App.jsx:814 | constant, no contract: the demo client "Cliente Demo S.A." with role client |
| `Session.AdminUser` | src/App.jsx:817 | constant, no contract: the administrator "Administrador CargoFresh" with role admin |
| `Session.ClearsEstimate` | src/App.jsx:836 | definition, no contract: cargo type, origin, destination and last mile discard the estimate |
| `Session.EstimateOf` | src/App.jsx:841-860 | definition, no contract: the estimator applied to the form's weight, type and last-mile flag |
| `Session.ApplyEdit` | src/App.jsx:832-835 | the named field gets the new value (checked state for the checkbox) and no other field changes |
| `Session.InputChange` | src/App.jsx:830-839 | only the named field changes; the estimate is cleared exactly for type, origin, destination and lastMile; view, user, orders and pending quote are unchanged |
| `Session.CalculateEstimate` | src/App.jsx:841-860 | an accepted form sets the estimate to the estimator's range; a rejected form changes nothing; nothing but the estimate ever changes |
| `Session.BuyNow` | src/App.jsx:862-869 | the estimate is recalculated; only if an estimate existed before the call, the pending quote becomes the current form at that estimate's min and the view becomes login; otherwise view and pending quote are unchanged |
| `Session.ShowLogin` | src/App.jsx:223 | the access buttons open the login view and change nothing else |
| `Session.BackToLanding` | src/App.jsx:640 | the back link returns to the landing view and changes nothing else |
| `Session.Login` | src/App.jsx:812-821 | role "client" signs in the demo client and opens the client dashboard; any other role signs in the administrator and opens the admin dashboard; pending quote, orders, form and estimate untouched |
| `Session.Logout` | src/App.jsx:823-828 | user null, view landing, pending quote null; orders, form and estimate unchanged |
| `Session.Books` | src/App.jsx:874-879 | definition, no contract: the order's route, cargo, weight and price are the given form's and price |
| `Session.NewOrder` | src/App.jsx:872-882 | definition, no contract: the row `handleCreateOrder` builds; its fields are stated by `Session.CreateOrder` |
| `Session.CreateOrder` | src/App.jsx:871-886 | exactly one new order, status "Pendiente de Autorización", in front of the unchanged old list; route, cargo, weight and price from the pending quote, else from the form and the estimate's min (0 without one); pending quote cleared; no user means no change |
| `Session.DiscardQuote` | src/App.jsx:674 | the pending quote is cleared and nothing else changes |
| `Session.AuthorizeOrder` | src/App.jsx:888-890 | the order list is rewritten by id as in `Orders.Authorize`; nothing else changes |
| `Session.Step` | src/App.jsx:893-925 | definition, no contract: each user action goes to the handler its control is wired to |
| `Session.Enabled` | src/App.jsx:893-925 | definition, no contract: the action's control is rendered in the current view. Estimate, edit and access are on the landing page, buy now only while an estimate is shown (530-535). Role buttons and the back link are on the login view (627-640). Logout is on both dashboards. Confirm and discard are on the pending-quote banner (666-677). Authorize is on admin rows awaiting authorization (782-783) |
| `Session.Run` | src/App.jsx:893-925 | definition, no contract: the actions applied in order |
| `Session.EnabledRun` | src/App.jsx:893-925 | definition, no contract: each action is offered by the state it is applied to |
| `Session.Inv` | src/App.jsx:805-890 | definition, no contract: the invariant of reachable states, proved by `SessionProperties.ReachableStatesSatisfyInv` |
| `SessionProperties.InitSatisfiesInv` | src/App.jsx:805-810 | the initial state satisfies the invariant |
| `SessionProperties.InputChangePreservesInv` | src/App.jsx:830-839 | a kept estimate still belongs to the unchanged type and last-mile flag |
| `SessionProperties.CalculatePreservesInv` | src/App.jsx:841-860 | a new estimate belongs to the current form and is a positive ordered range |
| `SessionProperties.BuyNowPreservesInv` | src/App.jsx:862-869 | from the landing view, buy now keeps the invariant: a quote gets a positive price |
| `SessionProperties.ShowLoginPreservesInv` | src/App.jsx:223 | opening login from the landing view keeps the invariant |
| `SessionProperties.BackToLandingPreservesInv` | src/App.jsx:640 | going back from the login view keeps the invariant |
| `SessionProperties.LoginPreservesInv` | src/App.jsx:812-821 | the dashboard shown always matches the signed-in user |
| `SessionProperties.LogoutPreservesInv` | src/App.jsx:823-828 | logout keeps the invariant |
| `SessionProperties.CreateOrderPreservesInv` | src/App.jsx:871-886 | the seed orders stay the unchanged tail; a new order is a client order |
| `SessionProperties.DiscardPreservesInv` | src/App.jsx:674 | discarding keeps the invariant |
| `SessionProperties.SeedRows` | src/App.jsx:27-30 | the last rows of the list are the seed orders, in order |
| `SessionProperties.PendingIdIsNotSeedId` | src/App.jsx:782-783 | a pending row's id, the only kind the authorize button is shown for, is no seed id |
| `SessionProperties.AuthorizeKeepsSeeds` | src/App.jsx:888-890 | authorizing a non-seed id keeps the seed rows and the client rows intact |
| `SessionProperties.AuthorizePreservesInv` | src/App.jsx:888-890 | authorizing a pending row's id keeps the invariant |
| `SessionProperties.StepPreservesInv` | src/App.jsx:893-925 | every action the current view offers keeps the invariant |
| `SessionProperties.RunPreservesInv` | src/App.jsx:893-925 | any sequence of offered actions keeps the invariant |
| `SessionProperties.ReachableStatesSatisfyInv` | src/App.jsx:805-890 | every reachable state: the dashboard shown matches the signed-in user; a shown estimate fits the current type and last-mile flag and is 0 < min ≤ max; a pending quote has a positive price; the seed orders are the intact tail |
| `SessionProperties.HistoryExtendsReflexive` | src/App.jsx:883 | a list extends itself |
| `SessionProperties.HistoryExtendsTransitive` | src/App.jsx:883 | extension composes |
| `SessionProperties.StepExtendsHistory` | src/App.jsx:883-889 | no handler removes or reorders an order: the old list is the tail of the new one, up to changes to Autorizado |
| `SessionProperties.RunExtendsHistory` | src/App.jsx:883-889 | the same over any sequence of actions |
| `SessionProperties.AdvancesIsExtends` | src/App.jsx:889 | status advancement is a special case of extension |
| `SessionProperties.HistoryAdvancesTransitive` | src/App.jsx:889 | status advancement composes |
| `SessionProperties.CreateOrderKeepsRows` | src/App.jsx:883 | placing an order keeps every old row, behind the new one |
| `SessionProperties.AuthorizeAdvancesRows` | src/App.jsx:888-890 | in a reachable state, authorizing a pending row's id changes only pending rows, to Autorizado |
| `SessionProperties.StepAdvancesHistory` | src/App.jsx:782-783 | through the views a status only moves from "Pendiente de Autorización" to "Autorizado" |
| `SessionProperties.RunAdvancesHistory` | src/App.jsx:782-783 | the same over any sequence of offered actions |
| `SessionProperties.QuoteFidelity` | src/App.jsx:862-886 | buy now, then login as client, then confirm books an order with exactly the quoted route, cargo, weight and price (the estimate's min) in front of the old orders; the quote survives login unchanged and is then cleared |
| `SessionProperties.DiscardBooksNothing` | src/App.jsx:674 | discarding clears the quote and books no order |
| `SessionProperties.AuthorizeOrderIdempotent` | src/App.jsx:888-890 | authorizing twice equals authorizing once |
| `SessionProperties.IdsMayRepeat` | src/App.jsx:873 | two orders placed with the same suffix share an id, and one authorization authorizes both |
| `SessionProperties.Dry100Example` | src/App.jsx:853-859 | Seco, 100 kg: 1900 to 2100 |
| `SessionProperties.Dry1000Example` | src/App.jsx:853-859 | Seco, 1000 kg: 12160 to 13440 |
| `SessionProperties.DryBand100` | src/App.jsx:853-858 | Seco, 100 kg: total 2000, band 1900 to 2100 |
| `SessionProperties.DryBand1000` | src/App.jsx:853-858 | Seco, 1000 kg: total 12800, band 12160 to 13440 |
| `SessionProperties.WeightEditKeepsEstimate` | src/App.jsx:830-839 | a weight edit changes the weight field and nothing else; the shown estimate stays |
| `SessionProperties.WeightEditKeepsStalePrice` | src/App.jsx:862-865 | after any estimate, editing the weight and buying quotes the new weight at the old estimate's minimum |
| `SessionProperties.StaleWeightQuote` | src/App.jsx:862-865 | estimate 100 kg of dry cargo, edit the weight to 1000, buy: the quote is for 1000 kg at the 100 kg price of 1900, while 1000 kg on its own is quoted from 12160 |
| `AppComponent.App.constructor` | src/App.jsx:805-810 | starts in the landing view with no user, the seed orders, an empty form and no estimate; satisfies the invariant |
| `AppComponent.App.HandleInputChange` | src/App.jsx:830-839 | new state is `Session.InputChange` of the old |
| `AppComponent.App.CalculateEstimate` | src/App.jsx:841-860 | returns the estimator's verdict for the form; new state is `Session.CalculateEstimate` of the old |
| `AppComponent.App.HandleBuyNow` | src/App.jsx:862-869 | reads the estimate before recalculating; new state is `Session.BuyNow` of the old |
| `AppComponent.App.OpenLogin` | src/App.jsx:223 | new state is `Session.ShowLogin` of the old |
| `AppComponent.App.ReturnToLanding` | src/App.jsx:640 | new state is `Session.BackToLanding` of the old |
| `AppComponent.App.HandleLogin` | src/App.jsx:812-821 | new state is `Session.Login` of the old |
| `AppComponent.App.HandleLogout` | src/App.jsx:823-828 | new state is `Session.Logout` of the old |
| `AppComponent.App.HandleCreateOrder` | src/App.jsx:871-886 | reports whether a user was signed in; new state is `Session.CreateOrder` of the old |
| `AppComponent.App.DiscardPendingQuote` | src/App.jsx:674 | new state is `Session.DiscardQuote` of the old |
| `AppComponent.App.HandleAuthorizeOrder` | src/App.jsx:888-890 | new state is `Session.AuthorizeOrder` of the old |
| `AppComponent.App.Dispatch` | src/App.jsx:893-925 | routes each action to its handler; an action the current view offers keeps the invariant |

## Left out

- Rendering: all JSX, `window.scrollTo` and the `alert` calls. The two validation alerts appear
  as the `EstimateError` returned by `App.CalculateEstimate`. The success alert after placing an
  order is not modelled. The rendering conditions that decide which handler a view offers are
  kept, as `Session.Enabled`.
- The landing form renders no last-mile checkbox and no presentation input. The model still
  lets the handler change those fields, as the handler itself allows.
- IEEE-754 arithmetic: weights, totals and bands are exact rationals. A total whose 95% or 105%
  is exactly halfway between integers rounds up here. Floating-point products such as
  `total * 0.95` can land just below the half and round down.
- `parseFloat` details: the text "Infinity" is not read, and the model has no overflow or
  underflow, since every literal is read as its exact rational.
  - A weight starting with "Infinity" (after an optional sign) reads as NaN here, and the
    invalid-weight alert fires. In the browser it reads as infinity, and an infinite estimate is
    shown.
  - A weight large enough to overflow (such as "1e400") is a finite number here. In the browser
    it becomes infinity and the estimate is infinite.
  - A weight small enough to underflow (such as "1e-400") is positive here and gets priced. In
    the browser it reads as 0, and the invalid-weight alert fires (src/App.jsx:849-850).
- `Math.random` and `new Date()`: the id suffix and the date are parameters.
- The chat assistant (`generateGeminiContent`, `CargoBot`), the freshness advisor
  (`handleFreshnessAnalysis`) and the contact form: these are network calls and UI demos outside
  the quoting core.
- `vite.config.js` is build configuration and is not part of this model.
- `DryMultiplier` and `FrequentClientDiscount` are declared with their configured values, but no
  code reads them, in the source or here.
