/** What the batch generator reports: per-class warnings and the closing summary line. */
module Messages {

  /** The four exceptions the generator catches per class, logs, and then carries on. */
  datatype ClassException =
    | SaxException
    | IoException
    | ClassNotFoundException
    | ResourceInitializationException

  datatype LogEntry =
    | Warn(message: string, cause: ClassException)
    | Info(message: string)

  /** The warning logged for a class whose processing threw `e`. */
  function WarningText(e: ClassException, clazzName: string): (r: string)
    ensures |r| > |clazzName| + 9
    ensures r[..7] == "Cannot "
    ensures r[|r| - |clazzName| - 2..] == "[" + clazzName + "]"
  {
    match e
    case SaxException => "Cannot serialize descriptor for [" + clazzName + "]"
    case IoException => "Cannot write descriptor for [" + clazzName + "]"
    case ClassNotFoundException => "Cannot analyze class [" + clazzName + "]"
    case ResourceInitializationException => "Cannot generate descriptor for [" + clazzName + "]"
  }

  /** The warning text tells the four caught exceptions apart, for any class name. */
  lemma WarningTextIdentifiesException(e1: ClassException, e2: ClassException, clazzName: string)
    ensures WarningText(e1, clazzName) == WarningText(e2, clazzName) <==> e1 == e2
  {
  }

  predicate IsDecimal(s: string)
  {
    forall i :: 0 <= i < |s| ==> '0' <= s[i] <= '9'
  }

  function Digit(d: nat): (c: char)
    requires d < 10
    ensures '0' <= c <= '9' && c as int - '0' as int == d
  {
    ('0' as int + d) as char
  }

  /** How string concatenation renders a count: decimal digits without a leading zero. */
  function DecimalString(n: nat): (r: string)
    ensures |r| >= 1 && IsDecimal(r)
    ensures |r| > 1 ==> r[0] != '0'
    decreases n
  {
    if n < 10 then [Digit(n)] else DecimalString(n / 10) + [Digit(n % 10)]
  }

  /** The number a string of decimal digits denotes. */
  function DecimalValue(s: string): nat
    requires IsDecimal(s)
  {
    if s == [] then 0 else DecimalValue(s[..|s| - 1]) * 10 + (s[|s| - 1] as int - '0' as int)
  }

  lemma {:induction false} DecimalRoundTrip(n: nat)
    ensures DecimalValue(DecimalString(n)) == n
    decreases n
  {
    if n >= 10 {
      var s := DecimalString(n);
      assert s[..|s| - 1] == DecimalString(n / 10);
      DecimalRoundTrip(n / 10);
    }
  }

  /** The info line closing a run: `Generated <count> descriptor.` or `... descriptors.`. */
  function SummaryText(count: nat): string
  {
    "Generated " + DecimalString(count) + " descriptor" + (if count != 1 then "s." else ".")
  }

  /**
   * The summary states the count in decimal and uses the singular exactly when the count is
   * one.
   */
  lemma SummaryReportsCount(count: nat)
    ensures exists digits: string ::
      IsDecimal(digits) && DecimalValue(digits) == count
      && SummaryText(count)
         == "Generated " + digits + (if count == 1 then " descriptor." else " descriptors.")
  {
    var digits := DecimalString(count);
    DecimalRoundTrip(count);
    assert SummaryText(count)
           == "Generated " + digits + (if count == 1 then " descriptor." else " descriptors.");
    assert IsDecimal(digits) && DecimalValue(digits) == count;
  }
}
