# warikan-bot core in Dafny

This project models the domain core of warikan-bot, a Slack bot that records who paid what for a shared
event (a channel) and reports a settlement. It covers three pieces:

- **Money and identifiers** (`valueobject.dfy`, module `ValueObject`). `Yen` is the amount type.
  `NewYen` rejects negative amounts. `MultiplyBy` rejects a negative multiplier. `CeilDivideBy`
  rejects a divisor of zero or below and computes `(y + d - 1) / d` with Go's truncating division.
  `EventID` and `PayerID` wrap a string; the empty string is the "unknown" identifier.
  Go's `(value, error)` returns are modelled as `Fallible(value, err)`, so the zero value that comes
  back with an error is part of each contract.
- **The payment use case** (`usecase.dfy`, module `Usecase`). The class `PaymentUsecase` holds the
  three stores as in-memory tables:
  - the event ids, as a set;
  - the payers, as a map keyed by payer id alone to the event the payer was first recorded under,
    as in the SQLite payers table;
  - the payments, as a list in insertion order.

  `Create`, `Join` and `Delete` update these stores. `Settle` sums the event's payments into a total
  and a per-payer map, then emits one instruction per map entry.
  As written, the code computes no balances and no transfers: each instruction only says how much
  one payer paid, and its recipient is the unknown payer id. The model follows the code.
- **The amount parser** (`handler.dfy`, module `Handler`; `strconv.dfy`, module `Strconv`). `ParseYen`
  removes every comma, reads the rest with a model of Go's `strconv.Atoi`, and passes the result
  through `NewYen`. The command and event handlers inline the same three steps
  (internal/infrastructure/handler/command.go:83-93, internal/infrastructure/handler/handler.go:109-119).

## Model

| member | source | states |
|---|---|---|
| `ValueObject.NewEventID` | internal/domain/valueobject/valueobject.go:18-28 | `String()` gives back the wrapped text; the id is unknown exactly when that text is empty |
| `ValueObject.NewPayerID` | internal/domain/valueobject/valueobject.go:30-40 | `String()` gives back the wrapped text; the id is unknown exactly when that text is empty |
| `ValueObject.IdentifierRoundTrip` | internal/domain/valueobject/valueobject.go:18-40 | rebuilding an id from its `String()` gives the same id; the zero value is the only unknown id |
| `ValueObject.NewYen` | internal/domain/valueobject/valueobject.go:60-69 | fails, with `Yen(0)` and the negative-amount error, exactly when the amount is negative; otherwise `Int64()` is the amount |
| `ValueObject.Yen.MultiplyBy` | internal/domain/valueobject/valueobject.go:76-81 | fails, with `Yen(0)`, exactly when the multiplier is negative; otherwise the product; a non-negative amount stays non-negative |
| `ValueObject.MultiplyByIdentities` | internal/domain/valueobject/valueobject.go:76-81 | multiplying by 0 gives 0 and multiplying by 1 gives the amount |
| `ValueObject.Yen.CeilDivideBy` | internal/domain/valueobject/valueobject.go:83-88 | fails, with `Yen(0)`, exactly when the divisor is 0 or below; for a non-negative amount the result `q` is non-negative, `q*d >= y` and `(q-1)*d < y`, so `q` is the ceiling of `y/d` |
| `ValueObject.GoDiv` | internal/domain/valueobject/valueobject.go:87 | Go's integer `/` by a positive divisor: the quotient rounds toward zero for either sign of the dividend |
| `ValueObject.CeilingOfShiftedQuotient` | internal/domain/valueobject/valueobject.go:87 | for `y >= 0`, the truncated quotient of `y + d - 1` by `d` is the least `q` with `q*d >= y` |
| `ValueObject.CeilDivideExact` | internal/domain/valueobject/valueobject.go:83-88 | when `d` divides `y`, the result is exactly `y/d`; dividing by 1 gives the amount back |
| `ValueObject.SharesCoverAmount` | internal/domain/valueobject/valueobject.go:76-88 | `d` shares of `CeilDivideBy(d)`, multiplied back with `MultiplyBy(d)`, cover the amount and exceed it by less than `d` |
| `Strconv.Atoi` | internal/infrastructure/handler/converter.go:14 | succeeds exactly on an optional `+`/`-` followed by one or more digits whose value fits in int64, giving that signed decimal value; on failure gives 0 with an error |
| `Strconv.AccumulateDecimalMeaning` | internal/infrastructure/handler/converter.go:14 | the left-to-right multiply-and-add of `ParseUint` succeeds exactly on digit strings whose positional value fits in 64 unsigned bits, and yields that value |
| `Strconv.AtoiFormatDecimal` | internal/infrastructure/handler/converter.go:14 | every non-negative int64, written in decimal with no sign, with `+` or with `-`, reads back as itself or its negation |
| `Handler.RemoveCommas` | internal/infrastructure/handler/converter.go:13 | the result holds no comma |
| `Handler.RemoveCommasKeepsOthers` | internal/infrastructure/handler/converter.go:13 | only commas are removed: every other character keeps its count, and the length drops by the number of commas |
| `Handler.RemoveCommasAppend` | internal/infrastructure/handler/converter.go:13 | removing commas commutes with concatenation |
| `Handler.RemoveCommasNoComma` | internal/infrastructure/handler/converter.go:13 | text without commas is left unchanged |
| `Handler.ParseYen` | internal/infrastructure/handler/converter.go:12-23 | every error comes with `Yen(0)`; succeeds exactly when the comma-free text has Atoi's form with a value from 0 to MaxInt64, giving that value; fails with the negative-amount error exactly when that value is negative, and with the parse error exactly when Atoi fails |
| `Handler.CommaAnywhere` | internal/infrastructure/handler/converter.go:13-14 | inserting a comma anywhere in the text does not change the result |
| `Handler.ParseYenRoundTrip` | internal/infrastructure/handler/converter.go:12-23 | every amount from 0 to MaxInt64, written in decimal with or without `+`, parses back to itself |
| `Handler.ParseYenSign` | internal/infrastructure/handler/converter.go:18-21 | a negative number is refused by `NewYen` with `Yen(0)`; `"-0"` parses to 0 |
| `Handler.ParseYenOutOfRange` | internal/infrastructure/handler/converter.go:14-17 | a number above MaxInt64, plain or with `+`, and a `-` number below MinInt64 fail with the parse error and `Yen(0)` |
| `Handler.ParseYenRejectsEmpty` | internal/infrastructure/handler/converter.go:14-17 | empty text, a lone comma and a lone sign fail with the parse error and `Yen(0)` |
| `Handler.ParseYenPlain` | internal/infrastructure/handler/converter.go:12-23 | `"1000"` parses to 1000 |
| `Handler.ParseYenThousandsSeparator` | internal/infrastructure/handler/converter.go:13 | `"1,000"` parses like `"1000"` |
| `Handler.ParseYenScatteredCommas` | internal/infrastructure/handler/converter.go:13 | `"1,0,00"` parses like `"1,000"` |
| `Handler.ParseYenSignExamples` | internal/infrastructure/handler/converter.go:14-21 | `"+12"` parses to 12; `"-5"` fails with the negative-amount error |
| `Handler.ParseYenRejectsLetters` | internal/infrastructure/handler/converter.go:14-17 | `"12a"` fails with the parse error |
| `Usecase.PaymentUsecase.constructor` | internal/usecase/payment.go:18-24 | the use case starts with empty event, payer and payment stores |
| `Usecase.PaymentUsecase.Create` | internal/usecase/payment.go:37-75 | an unknown event id fails and changes nothing. An unknown payer id fails after the event is stored, and adds no payer and no payment. Otherwise the event is stored. The payer is added only if its id is new; an existing payer keeps its original event. Exactly one payment with a new id and the given event, payer and amount is appended and returned. The store invariant is kept |
| `Usecase.PaymentUsecase.Delete` | internal/usecase/payment.go:77-83 | the payment list loses the payments with that id; events, payers and the id source are unchanged |
| `Usecase.PaymentUsecase.Join` | internal/usecase/payment.go:85-110 | an unknown event id fails and changes nothing. An unknown payer id fails after the event is stored. A payer id already stored, under any event, fails with already-exists and adds nothing. Otherwise the payer is added under the event and returned. Payments never change |
| `Usecase.PaymentUsecase.Settle` | internal/usecase/payment.go:112-142 | the total is the sum of the event's payment amounts. There is one instruction per distinct payer among those payments, in any order and none twice. Each instruction carries that payer's own sum and the unknown payer as recipient. The amounts add up to the total |
| `Usecase.AddToTotals` | internal/usecase/payment.go:129-132 | one pass of the summing loop extends the total and the per-payer map by one payment |
| `Usecase.DrawNext` | internal/usecase/payment.go:134-139 | one pass of the instruction loop adds one instruction for a not-yet-drawn payer and keeps every payer drawn at most once |
| `Usecase.ReportFromTotals` | internal/usecase/payment.go:127-139 | drawing every key of the per-payer map once yields the per-payer report, whose amounts sum to the total |
| `Usecase.InstructionsSumToTotal` | internal/usecase/payment.go:129-139 | the instruction amounts of any per-payer report add up to the sum of the payments |
| `Usecase.ReportedPayers` | internal/usecase/payment.go:127-139 | the payers named in the report are exactly the payers with a payment, so a payer whose payments are all 0 is listed and a payer who only joined is not; there are as many instructions as such payers |
| `Usecase.NothingToSettle` | internal/usecase/payment.go:122-132 | with no payments the total is 0 and the instruction list is empty |
| `Usecase.PaidByNonPayer` | internal/usecase/payment.go:127-132 | a payer with no payment in the list has paid 0 |
| `Usecase.AppendCounted` | internal/usecase/payment.go:63-74 | a newly recorded payment raises its event's total and its payer's sum by its amount and lists its payer; other events' payment lists are unchanged |
| `Usecase.DeleteExactlyOne` | internal/usecase/payment.go:77-83 | with unique ids, deleting a stored payment removes that one payment and keeps the others in order |
| `Usecase.WithoutAbsentPayment` | internal/usecase/payment.go:77-83 | deleting an id that no payment has leaves the list unchanged |
| `Usecase.DeleteUncounted` | internal/usecase/payment.go:77-83 | after deleting a stored payment, a later settlement of its event totals that amount less; other events' totals are unchanged |
| `Usecase.WithoutPaymentKeepsDistinct` | internal/usecase/payment.go:77-83 | deleting keeps payment ids unique |

## Left out

- Slack and HTTP serving, request signature checks, and dispatch of events and commands
  (command.go, handler.go, event.go): network I/O and calls into the Slack SDK.
- The amount, join and help regular expressions: Go RE2 matching is a foreign library. Only the
  conversion after the match (`parseYen`) is modelled.
- The message builders in converter.go and `Yen.String`: formatting through Slack block types and
  locale-aware number printing.
- The SQLite repositories and the Slack mapper: SQL I/O. Only their key semantics are kept:
  - events form a set;
  - payers are keyed by payer id alone, as the primary key of the payers table says;
  - `Create` of an existing payer fails with already-exists, and `CreateIfNotExists` of one does
    nothing;
  - payments are kept in insertion order.

  The payment repository's `Delete` and `FindByEventID` are not part of the shown source. They are
  modelled as removing every payment with the id (no error for an absent id) and as filtering by
  event in insertion order.
- Storage failures other than the payer primary-key conflict. The stores here never fail. So
  `Delete` and `Settle` return no error, and `Create` and `Join` fail only for an unknown id or an
  already-stored payer. The source propagates an event-store error from `Create`
  (payment.go:45-48), but `Join` ignores one (payment.go:93); with a store that never fails the two
  behave alike.
- The event store's insert (internal/infrastructure/repository/event.go:36) is written
  `INSERT … ON CONFLICT IGNORE`, which is not a form of SQLite's upsert clause (that needs
  `ON CONFLICT … DO NOTHING`). Read as written, every `events.CreateIfNotExists` would then fail, so
  `Create` would return its error at payment.go:45-48 on every call while `Join` goes on past it at
  payment.go:93. The never-failing event store of this model does not show that.
- UUID generation and parsing: `NewPaymentID` is modelled by a counter, so each new payment gets an
  id that no payment has had before.
- The payer list that `Settle` fetches (payment.go:117-120): the code uses it only to size the
  instruction slice, which does not affect the result.
- The console logging (`fmt.Println`) on every error path.
- `main.go` wiring, the `entity.go` constructors and the domain repository interfaces: that snapshot
  does not build as shown (`NewEventID()` takes no argument there, and the interfaces name methods the
  use case does not call).
- Strings are sequences of characters, while Go strings are bytes. Commas, signs and digits are
  ASCII, so the two agree on what the parser accepts.
- `ValueObject.Yen.MultiplyBy`: does not model 64-bit wrap-around of `y * m`. Amounts are
  unbounded integers here, and the source has no overflow check.
- `ValueObject.Yen.CeilDivideBy`: does not model 64-bit wrap-around of `y + d - 1`, which the source
  would hit only for amounts within `d` of MaxInt64.
- `Usecase.PaymentUsecase.Settle`: does not model 64-bit wrap-around of the total or of the per-payer
  sums. The instruction order is any order, because it follows Go's randomised map iteration.
- `Strconv.Atoi`: does not distinguish Go's syntax error from its range error, and returns 0 rather
  than the clamped bound on a range error. `parseYen` wraps either error the same way and returns
  `Yen(0)`. Go's fast path for short inputs gives the same outcome as the `ParseInt` path modelled
  here.
