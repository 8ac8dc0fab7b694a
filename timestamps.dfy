/**
 * Timestamps. Stripe reports billing periods as epoch seconds; the
 * subscriptions table stores them as text produced by
 * `new Date(seconds * 1000).toISOString()` and reads them back with
 * `new Date(text).getTime()`. Calendar rendering is not modelled: the text of
 * an instant is an injective encoding of its epoch milliseconds
 * ("@" followed by the signed decimal millisecond count), and parsing inverts
 * that encoding and yields `NaN` (here `None`) for any other text.
 */
module Timestamps {
  import opened JsStrings
  import opened JsValues

  /** `Date.prototype.toISOString` of an instant given in epoch milliseconds. */
  function FormatIso(millis: int): (r: string)
    ensures |r| >= 2 && r[0] == '@'
  {
    if millis < 0 then "@-" + DecimalText(-millis) else "@" + DecimalText(millis)
  }

  /** `new Date(text).getTime()`: `None` stands for `NaN`. */
  function ParseIso(text: string): (r: Option<int>)
    ensures r.Some? ==> |text| >= 2 && text[0] == '@'
  {
    if |text| >= 2 && text[0] == '@' && AllDigits(text[1..]) then Some(DigitsValue(text[1..]))
    else if |text| >= 3 && text[0] == '@' && text[1] == '-' && AllDigits(text[2..]) then Some(-(DigitsValue(text[2..]) as int))
    else None
  }

  /** Parsing the rendering of an instant gives that instant back. */
  lemma ParseFormat(millis: int)
    ensures ParseIso(FormatIso(millis)) == Some(millis)
  {
    var t := FormatIso(millis);
    if millis < 0 {
      DecimalTextRoundTrip(-millis);
      assert t[2..] == DecimalText(-millis);
      assert !IsDigit(t[1]);
    } else {
      DecimalTextRoundTrip(millis);
      assert t[1..] == DecimalText(millis);
    }
  }

  /** Hence the rendering is injective. */
  lemma FormatInjective(a: int, b: int)
    requires FormatIso(a) == FormatIso(b)
    ensures a == b
  {
    ParseFormat(a);
    ParseFormat(b);
  }

  /** `toIso(epochSeconds)` of the webhook and checkout routes: 0 and a missing
      value give `null`, any other epoch gives the text of that instant. */
  function ToIso(epochSeconds: Option<int>): (r: Option<string>)
    ensures epochSeconds.None? || epochSeconds == Some(0) <==> r.None?
    ensures r.Some? ==> ParseIso(r.value) == Some(epochSeconds.value * 1000)
  {
    match epochSeconds
    case None => None
    case Some(e) =>
      if e == 0 then None
      else
        ParseFormat(e * 1000);
        Some(FormatIso(e * 1000))
  }
}
