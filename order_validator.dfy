/** Tracking-code validation (`isValidTrackingCode`) and the valid/invalid split of parsed
    orders (`filterValidOrders`). A Correios tracking code is two letters, nine digits and
    "BR", matched without regard to case. */
module OrderValidator {
  import opened Common
  import opened Seqs

  /** A parsed order row: order number, shipping status and an optional tracking code. */
  datatype ParsedOrder = ParsedOrder(orderNumber: string, shippingStatus: string, trackingCode: Option<string>)

  /** One position of an anchored regular expression made of single-character atoms. */
  datatype CharClass = Letter | Digit | Literal(c: char)

  /** `^[A-Z]{2}\d{9}BR$` as a list of atoms, one per character of a matching string. */
  const TrackingPattern: seq<CharClass> :=
    [Letter, Letter, Digit, Digit, Digit, Digit, Digit, Digit, Digit, Digit, Digit, Literal('B'), Literal('R')]

  /** Whether atom `k` accepts `c` under the `i` flag (ASCII case folding). */
  predicate ClassAccepts(k: CharClass, c: char) {
    match k
    case Letter => IsAsciiLetter(c)
    case Digit => IsAsciiDigit(c)
    case Literal(l) => AsciiLower(c) == AsciiLower(l)
  }

  /** An anchored match of a fixed-width pattern: same length, every atom accepts its character. */
  predicate MatchesAnchored(pattern: seq<CharClass>, s: string) {
    |s| == |pattern| && forall i :: 0 <= i < |s| ==> ClassAccepts(pattern[i], s[i])
  }

  /** `/^[A-Z]{2}\d{9}BR$/i.test(s)` */
  predicate MatchesTrackingPattern(s: string) {
    MatchesAnchored(TrackingPattern, s)
  }

  /** `isValidTrackingCode`: a missing or empty code is rejected before the pattern is tried. */
  function IsValidTrackingCode(code: Option<string>): (valid: bool)
    ensures code.None? || code == Some("") ==> !valid
    ensures valid ==> |code.value| == 13
  {
    code.Some? && code.value != "" && MatchesTrackingPattern(code.value)
  }

  /** Spelled out position by position: a code is valid exactly when it has two ASCII letters,
      nine ASCII digits, then "B" and "R" in either case, and nothing else. */
  lemma ValidIffShape(s: string)
    ensures IsValidTrackingCode(Some(s)) <==>
      && |s| == 13
      && IsAsciiLetter(s[0]) && IsAsciiLetter(s[1])
      && (forall i :: 2 <= i < 11 ==> IsAsciiDigit(s[i]))
      && (s[11] == 'B' || s[11] == 'b') && (s[12] == 'R' || s[12] == 'r')
  {
    if |s| == 13 {
      assert forall i :: 2 <= i < 11 ==> TrackingPattern[i] == Digit;
      assert ClassAccepts(TrackingPattern[11], s[11]) <==> (s[11] == 'B' || s[11] == 'b');
      assert ClassAccepts(TrackingPattern[12], s[12]) <==> (s[12] == 'R' || s[12] == 'r');
    }
  }

  /** The `i` flag: lower-casing a code does not change whether it is valid. */
  lemma ValidityIgnoresCase(s: string)
    ensures IsValidTrackingCode(Some(ToLower(s))) == IsValidTrackingCode(Some(s))
  {
    var l := ToLower(s);
    if |s| == 13 {
      forall i | 0 <= i < 13 ensures ClassAccepts(TrackingPattern[i], l[i]) == ClassAccepts(TrackingPattern[i], s[i]) {
        assert l[i] == AsciiLower(s[i]);
      }
    }
  }

  /** Concrete cases: the documented example, its lower-case spelling, and two near misses. */
  lemma ExampleCodes()
    ensures IsValidTrackingCode(Some("AA123456789BR"))
    ensures IsValidTrackingCode(Some("aa123456789br"))
    ensures !IsValidTrackingCode(Some("AA12345678BR"))
    ensures !IsValidTrackingCode(Some("AA123456789US"))
  {
    ValidIffShape("AA123456789BR");
    ValidIffShape("aa123456789br");
    ValidIffShape("AA12345678BR");
    ValidIffShape("AA123456789US");
  }

  /** The predicate `filterValidOrders` keeps an order by. */
  predicate HasValidCode(o: ParsedOrder) {
    IsValidTrackingCode(o.trackingCode)
  }

  /** The value `filterValidOrders` returns. */
  datatype ValidationSplit = ValidationSplit(validOrders: seq<ParsedOrder>, invalidCount: int)

  /** `filterValidOrders`: the orders with a valid tracking code, in input order, and how many
      orders were left out. */
  function FilterValidOrders(orders: seq<ParsedOrder>): (r: ValidationSplit)
    ensures r.invalidCount + |r.validOrders| == |orders|
    ensures r.invalidCount == |Reject(HasValidCode, orders)|
    ensures forall i :: 0 <= i < |r.validOrders| ==> IsValidTrackingCode(r.validOrders[i].trackingCode)
    ensures forall i :: 0 <= i < |orders| && HasValidCode(orders[i]) ==> orders[i] in r.validOrders
    ensures forall i :: 0 <= i < |orders| && orders[i].trackingCode.None? ==> orders[i] !in r.validOrders
    ensures IsSubsequence(r.validOrders, orders)
  {
    var valid := Filter(HasValidCode, orders);
    FilterIsSubsequence(HasValidCode, orders);
    FilterRejectPartition(HasValidCode, orders);
    ValidationSplit(valid, |orders| - |valid|)
  }

  /** The valid orders are the only order-preserving selection of valid-code orders that
      misses none of them. */
  lemma ValidOrdersUnique(orders: seq<ParsedOrder>, picked: seq<ParsedOrder>)
    requires IsSubsequence(picked, orders)
    requires forall i :: 0 <= i < |picked| ==> HasValidCode(picked[i])
    requires |picked| == |Filter(HasValidCode, orders)|
    ensures picked == FilterValidOrders(orders).validOrders
  {
    FilterUnique(HasValidCode, picked, orders);
  }

  /** Validating the already-valid orders again keeps all of them and counts nothing invalid. */
  lemma RefilterIsIdentity(orders: seq<ParsedOrder>)
    ensures FilterValidOrders(FilterValidOrders(orders).validOrders)
         == ValidationSplit(FilterValidOrders(orders).validOrders, 0)
  {
    FilterIdempotent(HasValidCode, orders);
  }
}
