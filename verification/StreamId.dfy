/** Stream entry identifiers and their decimal text, as they travel between the queue and Redis. */
module StreamId {
  import opened Wrappers

  const U64_END: int := 0x1_0000_0000_0000_0000

  type U64 = x: int | 0 <= x < U64_END

  datatype Id = Id(ms: U64, serial: U64)

  const ZERO: Id := Id(0, 0)

  predicate Less(a: Id, b: Id) {
    a.ms < b.ms || (a.ms == b.ms && a.serial < b.serial)
  }

  // ----- Decimal text --------------------------------------------------------------------------

  predicate IsDigit(c: char) {
    '0' <= c <= '9'
  }

  function PrintNat(n: nat): (s: string)
    ensures s != "" && forall i | 0 <= i < |s| :: IsDigit(s[i])
  {
    var last := ('0' as int + n % 10) as char;
    if n < 10 then [last] else PrintNat(n / 10) + [last]
  }

  /** The value of a run of digits; absent when anything else occurs. */
  function ParseDigits(s: string): Option<nat> {
    if s == "" then Some(0)
    else if !IsDigit(s[|s| - 1]) then None
    else
      match ParseDigits(s[..|s| - 1])
      case None => None
      case Some(n) => Some(10 * n + (s[|s| - 1] as int - '0' as int))
  }

  /** Parsing an unsigned 64-bit integer: an optional plus sign, at least one digit, no overflow. */
  function ParseU64(s: string): Option<U64> {
    var digits := if s != "" && s[0] == '+' then s[1..] else s;
    if digits == "" then None
    else
      match ParseDigits(digits)
      case Some(n) => if n < U64_END then Some(n) else None
      case None => None
  }

  /** The position of the first dash, or the length of the text. */
  function FindDash(s: string): (i: nat)
    ensures i <= |s|
  {
    if s == "" || s[0] == '-' then 0 else 1 + FindDash(s[1..])
  }

  function Parse(s: string): Option<Id> {
    var i := FindDash(s);
    if i == |s| then None
    else
      match (ParseU64(s[..i]), ParseU64(s[i + 1..]))
      case (Some(ms), Some(serial)) => Some(Id(ms, serial))
      case _ => None
  }

  function Print(id: Id): string {
    PrintNat(id.ms) + "-" + PrintNat(id.serial)
  }

  lemma {:induction false} DigitsRoundTrip(n: nat)
    ensures ParseDigits(PrintNat(n)) == Some(n)
  {
    if n >= 10 {
      DigitsRoundTrip(n / 10);
      var s := PrintNat(n);
      assert s[..|s| - 1] == PrintNat(n / 10);
    }
  }

  lemma U64RoundTrip(n: U64)
    ensures ParseU64(PrintNat(n)) == Some(n)
  {
    DigitsRoundTrip(n);
    assert IsDigit(PrintNat(n)[0]);
  }

  lemma {:induction false} DashAfterDigits(digits: string, rest: string)
    requires forall i | 0 <= i < |digits| :: IsDigit(digits[i])
    ensures FindDash(digits + "-" + rest) == |digits|
  {
    var s := digits + "-" + rest;
    if digits != "" {
      assert s[0] == digits[0] && IsDigit(digits[0]);
      assert s[1..] == digits[1..] + "-" + rest;
      DashAfterDigits(digits[1..], rest);
    }
  }

  /** Parsing what was printed gives the identifier back. */
  lemma RoundTrip(id: Id)
    ensures Parse(Print(id)) == Some(id)
  {
    var ms, serial := PrintNat(id.ms), PrintNat(id.serial);
    DashAfterDigits(ms, serial);
    U64RoundTrip(id.ms);
    U64RoundTrip(id.serial);
    assert Print(id)[..|ms|] == ms && Print(id)[|ms| + 1..] == serial;
  }

  lemma PrintInjective(a: Id, b: Id)
    requires Print(a) == Print(b)
    ensures a == b
  {
    RoundTrip(a);
    RoundTrip(b);
  }

  // ----- Order and successor, on text ----------------------------------------------------------

  /** Comparison of identifiers given as text; text that does not parse is never smaller. */
  predicate LessText(left: string, right: string) {
    match (Parse(left), Parse(right))
    case (Some(l), Some(r)) => Less(l, r)
    case _ => false
  }

  /** On printed identifiers the comparison is a strict total order. */
  lemma LessTextIsTotalOrder(a: Id, b: Id, c: Id)
    ensures !LessText(Print(a), Print(a))
    ensures LessText(Print(a), Print(b)) && LessText(Print(b), Print(c)) ==> LessText(Print(a), Print(c))
    ensures LessText(Print(a), Print(b)) || LessText(Print(b), Print(a)) || Print(a) == Print(b)
    ensures LessText(Print(a), Print(b)) <==> Less(a, b)
  {
    RoundTrip(a);
    RoundTrip(b);
    RoundTrip(c);
  }

  /** The identifier with the next sequence number; at the top of the range the number wraps around. */
  function Next(id: Id): Id {
    Id(id.ms, (id.serial + 1) % U64_END)
  }

  function After(s: string): Option<string> {
    match Parse(s)
    case Some(id) => Some(Print(Next(id)))
    case None => None
  }

  /** Below the top of the sequence range, and only there, the successor is the least identifier above. */
  lemma AfterIsLeastAbove(id: Id, other: Id)
    ensures After(Print(id)) == Some(Print(Next(id)))
    ensures id.serial + 1 < U64_END <==> Less(id, Next(id))
    ensures Less(id, Next(id)) ==> (Less(id, other) <==> !Less(other, Next(id)))
  {
    RoundTrip(id);
  }

  /** Where a range query that goes on after `id` has to start. */
  function RangeStartAfter(s: string, exclusive: bool, afterDelivered: bool): string {
    if !afterDelivered && (s == "0-0" || s == "-") then "-"
    else if exclusive then "(" + s
    else
      match After(s)
      case Some(next) => next
      case None => s
  }

  // ----- How Redis reads the start of a range --------------------------------------------------

  datatype Bound = First | Beyond(id: Id) | From(id: Id) | Unreadable

  function ParseBound(s: string): Bound {
    if s == "-" then First
    else if s != "" && s[0] == '(' then
      match Parse(s[1..])
      case Some(id) => Beyond(id)
      case None => Unreadable
    else
      match Parse(s)
      case Some(id) => From(id)
      case None => Unreadable
  }

  predicate Admits(bound: Bound, id: Id) {
    match bound
    case First => true
    case Beyond(low) => Less(low, id)
    case From(low) => !Less(id, low)
    case Unreadable => false
  }

  /** How the three forms of a start text read. */
  lemma StartReads(id: Id)
    ensures ParseBound("-") == First
    ensures ParseBound(Print(id)) == From(id)
    ensures ParseBound("(" + Print(id)) == Beyond(id)
  {
    RoundTrip(id);
    PrintStartsWithDigit(id);
    hide Print, Parse;
    assert ("(" + Print(id))[1..] == Print(id);
  }

  /** In either range mode the start text admits exactly the identifiers above. */
  lemma RangeStartAdmits(id: Id, exclusive: bool, afterDelivered: bool, other: Id)
    requires exclusive || id.serial + 1 < U64_END
    requires !afterDelivered ==> other != ZERO
    ensures Admits(ParseBound(RangeStartAfter(Print(id), exclusive, afterDelivered)), other) <==> Less(id, other)
    ensures !ParseBound(RangeStartAfter(Print(id), exclusive, afterDelivered)).Unreadable?
  {
    ZeroText();
    StartReads(id);
    StartReads(Next(id));
    AfterIsLeastAbove(id, other);
    PrintStartsWithDigit(id);
    hide Print, Parse, ParseBound, After;
    if Print(id) == "0-0" {
      PrintInjective(id, ZERO);
    }
  }

  lemma PrintStartsWithDigit(id: Id)
    ensures Print(id) != "" && IsDigit(Print(id)[0])
  {
    assert Print(id)[0] == PrintNat(id.ms)[0];
  }

  lemma ZeroText()
    ensures Print(ZERO) == "0-0"
  {
    assert PrintNat(0) == "0";
  }
}
