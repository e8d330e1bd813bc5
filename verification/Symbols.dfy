/**
 Canonical symbol identity: which instrument a broker's decorated name denotes.
 Names are ASCII strings; any other character counts as a separator.
 */
module Symbols {
  import opened Wrappers

  /** The closed set of currency codes. A code outside it never resolves. */
  const CURRENCIES: set<string> := {
    "USD", "EUR", "GBP", "JPY", "CHF", "AUD", "NZD", "CAD",
    "SEK", "NOK", "DKK", "PLN", "CZK", "HUF", "TRY", "ZAR", "MXN",
    "SGD", "HKD", "CNH", "CNY", "INR", "THB", "ILS", "RUB",
    "XAU", "XAG", "XPT", "XPD",
    "BTC", "ETH", "LTC", "XRP", "BCH", "SOL", "ADA", "DOT"
  }

  function Upper(c: char): char {
    if 'a' <= c <= 'z' then (c as int - 32) as char else c
  }

  predicate IsAlnum(c: char) {
    'A' <= c <= 'Z' || '0' <= c <= '9'
  }

  /** Upper-cased letters and digits of a name, in order. */
  function Alphanumeric(name: string): string {
    if name == [] then []
    else
      var c := Upper(name[0]);
      (if IsAlnum(c) then [c] else []) + Alphanumeric(name[1..])
  }

  /** The six-character pair inside a broker name, when both halves are known codes. */
  function CanonicalSymbol(name: string): (r: Option<string>)
    ensures r.Some? ==> |r.value| == 6 && r.value[..3] in CURRENCIES && r.value[3..] in CURRENCIES
  {
    var text := Alphanumeric(name);
    if |text| < 6 then None
    else if text[..3] in CURRENCIES && text[3..6] in CURRENCIES then Some(text[..3] + text[3..6])
    else None
  }

  function SplitCurrencies(name: string): Option<(string, string)> {
    match CanonicalSymbol(name)
    case None => None
    case Some(pair) => Some((pair[..3], pair[3..]))
  }

  predicate SameInstrument(left: string, right: string) {
    var l, r := CanonicalSymbol(left), CanonicalSymbol(right);
    if l.Some? && r.Some? then l == r
    else Alphanumeric(left) == Alphanumeric(right)
  }

  /** What a name denotes: a currency pair, or an instrument known only by its own letters. */
  datatype Instrument = Pair(code: string) | Raw(text: string)

  function InstrumentOf(name: string): Instrument {
    match CanonicalSymbol(name)
    case Some(pair) => Pair(pair)
    case None => Raw(Alphanumeric(name))
  }

  /** Two names are the same instrument exactly when they denote the same thing. */
  lemma SameInstrumentIsSameDenotation(left: string, right: string)
    ensures SameInstrument(left, right) <==> InstrumentOf(left) == InstrumentOf(right)
  {
  }

  lemma SameInstrumentIsAnEquivalence(a: string, b: string, c: string)
    ensures SameInstrument(a, a)
    ensures SameInstrument(a, b) <==> SameInstrument(b, a)
    ensures SameInstrument(a, b) && SameInstrument(b, c) ==> SameInstrument(a, c)
  {
  }

  lemma {:induction false} AlphanumericConcat(a: string, b: string)
    ensures Alphanumeric(a + b) == Alphanumeric(a) + Alphanumeric(b)
  {
    if a == [] {
      assert a + b == b;
    } else {
      var head := if IsAlnum(Upper(a[0])) then [Upper(a[0])] else [];
      assert (a + b)[0] == a[0] && (a + b)[1..] == a[1..] + b;
      calc {
        Alphanumeric(a + b);
        head + Alphanumeric(a[1..] + b);
        { AlphanumericConcat(a[1..], b); }
        head + (Alphanumeric(a[1..]) + Alphanumeric(b));
        (head + Alphanumeric(a[1..])) + Alphanumeric(b);
        Alphanumeric(a) + Alphanumeric(b);
      }
    }
  }

  /** A broker's suffix never changes which pair a name denotes. */
  lemma SuffixKeepsTheInstrument(name: string, suffix: string)
    requires CanonicalSymbol(name).Some?
    ensures CanonicalSymbol(name + suffix) == CanonicalSymbol(name)
    ensures SameInstrument(name, name + suffix)
  {
    AlphanumericConcat(name, suffix);
    var text, longer := Alphanumeric(name), Alphanumeric(name + suffix);
    assert longer[..3] == text[..3] && longer[3..6] == text[3..6];
  }

  lemma {:induction false} CapitalsStay(name: string)
    requires forall c :: c in name ==> 'A' <= c <= 'Z'
    ensures Alphanumeric(name) == name
  {
    if name != [] {
      assert name[0] in name && forall c :: c in name[1..] ==> c in name;
      CapitalsStay(name[1..]);
      assert name == [name[0]] + name[1..];
    }
  }

  /** A bare pair of known codes is itself. */
  lemma BarePairIsItself(base: string, quote: string)
    requires |base| == 3 && |quote| == 3 && base in CURRENCIES && quote in CURRENCIES
    requires forall c :: c in base || c in quote ==> 'A' <= c <= 'Z'
    ensures CanonicalSymbol(base + quote) == Some(base + quote) && SplitCurrencies(base + quote) == Some((base, quote))
  {
    CapitalsStay(base + quote);
    assert (base + quote)[..3] == base && (base + quote)[3..6] == quote && (base + quote)[3..] == quote;
  }
}
