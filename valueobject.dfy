/** Value objects of the domain layer: the money amount `Yen` and the event and
    payer identifiers (internal/domain/valueobject/valueobject.go). */
module ValueObject {

  import opened Wrappers

  /** The errors the core can report. The Go code builds them with
      `errors.New` or `NewErrorAlreadyExists`; only their identity matters here. */
  datatype Error =
    | NegativeAmount        // "amount cannot be negative"
    | NegativeMultiplier    // "multiplier cannot be negative"
    | NonPositiveDivisor    // "divisor cannot be zero or negative"
    | InvalidNumber         // strconv.Atoi failed (syntax or range)
    | UnknownEventID        // "eventID is unknown"
    | UnknownPayerID        // "payerID is unknown"
    | AlreadyExists         // "payer already exists"

  /** A Go `(T, error)` pair: `err` is `None` when the error is nil. */
  datatype Fallible<T> = Fallible(value: T, err: Option<Error>)
  {
    predicate Ok() { err.None? }
  }

  /** Go's identifiers are structs around a string; the zero value (the empty
      string) is the "unknown" identifier. */
  datatype EventID = EventID(value: string)
  {
    function String(): string { value }

    predicate IsUnknown() { value == "" }
  }

  datatype PayerID = PayerID(value: string)
  {
    function String(): string { value }

    predicate IsUnknown() { value == "" }
  }

  function NewEventID(value: string): (e: EventID)
    ensures e.String() == value
    ensures e.IsUnknown() <==> |value| == 0
  {
    EventID(value)
  }

  function NewPayerID(value: string): (p: PayerID)
    ensures p.String() == value
    ensures p.IsUnknown() <==> |value| == 0
  {
    PayerID(value)
  }

  /** Two identifiers are equal exactly when their strings are, so `String` is
      injective and the zero value is the only unknown identifier. */
  lemma IdentifierRoundTrip(e: EventID, p: PayerID)
    ensures NewEventID(e.String()) == e && NewPayerID(p.String()) == p
    ensures e.IsUnknown() <==> e == EventID("")
    ensures p.IsUnknown() <==> p == PayerID("")
  {
  }

  /** `type Yen int64`. The amount is an unbounded integer here; a Go conversion
      `Yen(x)` may hold a negative value, only `NewYen` rejects one. */
  datatype Yen = Yen(value: int)
  {
    function Int64(): int { value }

    /** Multiplication by a non-negative multiplier; a negative one is refused
        and the zero amount comes back with the error. */
    function MultiplyBy(multiplier: int): (r: Fallible<Yen>)
      ensures !r.Ok() <==> multiplier < 0
      ensures !r.Ok() ==> r.value == Yen(0) && r.err == Some(NegativeMultiplier)
      ensures r.Ok() ==> r.value.Int64() == Int64() * multiplier
      ensures r.Ok() && Int64() >= 0 ==> r.value.Int64() >= 0
    {
      if multiplier < 0 then Fallible(Yen(0), Some(NegativeMultiplier))
      else Fallible(Yen(value * multiplier), None)
    }

    /** Division rounding up, computed as Go does: `(y + d - 1) / d` with
        Go's truncating integer division. A divisor of zero or below is refused. */
    function CeilDivideBy(divisor: int): (r: Fallible<Yen>)
      ensures !r.Ok() <==> divisor <= 0
      ensures !r.Ok() ==> r.value == Yen(0) && r.err == Some(NonPositiveDivisor)
      ensures r.Ok() && Int64() >= 0 ==>
                r.value.Int64() >= 0 &&
                r.value.Int64() * divisor >= Int64() &&
                (r.value.Int64() - 1) * divisor < Int64()
    {
      if divisor <= 0 then Fallible(Yen(0), Some(NonPositiveDivisor))
      else
        var q := GoDiv(value + divisor - 1, divisor);
        CeilingOfShiftedQuotient(value, divisor, q);
        Fallible(Yen(q), None)
    }
  }

  /** `NewYen(amount int)`: the only checked way to build an amount. */
  function NewYen(amount: int): (r: Fallible<Yen>)
    ensures !r.Ok() <==> amount < 0
    ensures !r.Ok() ==> r.value == Yen(0) && r.err == Some(NegativeAmount)
    ensures r.Ok() ==> r.value.Int64() == amount && r.value.Int64() >= 0
  {
    if amount < 0 then Fallible(Yen(0), Some(NegativeAmount))
    else Fallible(Yen(amount), None)
  }

  /** Go's `/` on integers: the quotient truncated toward zero. Dafny's `/` is
      Euclidean, which differs for a negative dividend. */
  function GoDiv(a: int, b: int): (q: int)
    requires b > 0
    ensures a >= 0 ==> 0 <= q && q * b <= a < q * b + b
    ensures a < 0 ==> q <= 0 && q * b - b < a <= q * b
  {
    var n := if a >= 0 then a else -a;
    var k := n / b;
    QuotientBounds(n, b);
    if a >= 0 then k else -k
  }

  /** Euclidean division of a non-negative number, with the product of the
      negated quotient spelled out. */
  lemma QuotientBounds(n: nat, b: int)
    requires b > 0
    ensures 0 <= n / b && (n / b) * b <= n < (n / b) * b + b
    ensures (-(n / b)) * b == -((n / b) * b)
  {
    var k, r := n / b, n % b;
    assert n == k * b + r && 0 <= r < b;
  }

  /** For a non-negative amount, the truncated quotient of `y + d - 1` by `d`
      is the least `q` with `q * d >= y`: the ceiling of `y / d`. */
  lemma CeilingOfShiftedQuotient(y: int, d: int, q: int)
    requires d > 0 && q == GoDiv(y + d - 1, d)
    ensures y >= 0 ==> q >= 0 && q * d >= y && (q - 1) * d < y
  {
    if y >= 0 {
      assert q * d <= y + d - 1 < q * d + d;
      assert (q - 1) * d == q * d - d;
    }
  }

  /** Dividing by one gives the amount back, and an exact division gives the
      exact quotient. */
  lemma CeilDivideExact(y: Yen, d: int, k: int)
    requires y.Int64() >= 0 && d > 0 && y.Int64() == k * d
    ensures y.CeilDivideBy(d) == Fallible(Yen(k), None)
    ensures y.CeilDivideBy(1) == Fallible(y, None)
  {
    var q := y.CeilDivideBy(d).value.Int64();
    assert (q - k) * d >= 0 && (q - 1 - k) * d < 0;
    SignOfProduct(q - k, d);
    SignOfProduct(q - 1 - k, d);
  }

  lemma SignOfProduct(a: int, d: int)
    requires d > 0
    ensures a * d >= 0 ==> a >= 0
    ensures a * d < 0 ==> a < 0
  {
    if a < 0 { assert a * d == -((-a) * d); }
  }

  /** The scaling identities: by zero gives zero, by one gives the amount. */
  lemma MultiplyByIdentities(y: Yen)
    ensures y.MultiplyBy(0) == Fallible(Yen(0), None)
    ensures y.MultiplyBy(1) == Fallible(y, None)
  {
  }

  /** Rounding up never loses money: `d` shares of `CeilDivideBy(d)` cover the
      amount, and overshoot it by less than `d`. */
  lemma SharesCoverAmount(y: Yen, d: int)
    requires y.Int64() >= 0 && d > 0
    ensures y.CeilDivideBy(d).Ok()
    ensures var share := y.CeilDivideBy(d).value;
            share.MultiplyBy(d).Ok() &&
            y.Int64() <= share.MultiplyBy(d).value.Int64() < y.Int64() + d
  {
    var q := y.CeilDivideBy(d).value.Int64();
    assert (q - 1) * d == q * d - d;
  }
}
