/** Conversions between naira (exact decimals, modelled as reals) and whole kobo. */
module Money {
  /** `_ngn_to_kobo`: quantize to a whole number, the decimal default being ties to even. */
  function NgnToKobo(naira: real): int {
    RoundHalfEven(naira * 100.0)
  }

  function RoundHalfEven(x: real): int {
    var low := x.Floor;
    var rest := x - low as real;
    if rest < 0.5 || (rest == 0.5 && low % 2 == 0) then low else low + 1
  }

  /** roundTiesToEven of section 4.3.1 of IEEE 754, restricted to whole numbers: no integer is closer, and
      of two equally close ones the even one is taken. */
  ghost predicate IsNearestEven(x: real, n: int) {
    && -0.5 <= x - n as real <= 0.5
    && (x - n as real == 0.5 || x - n as real == -0.5 ==> n % 2 == 0)
  }

  lemma RoundHalfEvenIsTheNearest(x: real, n: int)
    ensures n == RoundHalfEven(x) <==> IsNearestEven(x, n)
  {
  }

  /** The kobo of any amount, whole or not: half a kobo away at most, and even when exactly half a kobo away. */
  lemma KoboIsTheNearest(naira: real, n: int)
    ensures n == NgnToKobo(naira)
            <==> && -0.5 <= naira * 100.0 - n as real <= 0.5
                 && (naira * 100.0 - n as real == 0.5 || naira * 100.0 - n as real == -0.5 ==> n % 2 == 0)
  {
    RoundHalfEvenIsTheNearest(naira * 100.0, n);
  }

  lemma NearestMeansNoCloserInteger(x: real, m: int)
    ensures Distance(x, RoundHalfEven(x)) <= Distance(x, m)
  {
    var n := RoundHalfEven(x);
    if m < n {
      assert m as real <= n as real - 1.0;
    } else if n < m {
      assert n as real + 1.0 <= m as real;
    }
  }

  function Distance(x: real, n: int): real {
    if x < n as real then n as real - x else x - n as real
  }

  lemma KoboIsMonotone(a: real, b: real)
    requires a <= b
    ensures NgnToKobo(a) <= NgnToKobo(b)
  {
  }

  /** `Decimal(amount_kobo) / Decimal(100)`: what is sent to the provider. */
  function KoboToNaira(kobo: int): real {
    kobo as real / 100.0
  }

  /** `int(...)` of Python: towards zero. */
  function Truncate(x: real): int {
    if x < 0.0 then -((-x).Floor) else x.Floor
  }

  /** `int(Decimal(str(raw_amount)) * 100)`: what is read back from a webhook. */
  function WebhookKobo(naira: real): int {
    Truncate(naira * 100.0)
  }

  /** The amount sent out comes back unchanged from the webhook parser and from the internal rounding, for
      every whole number of kobo. */
  lemma KoboRoundTrip(kobo: int)
    ensures WebhookKobo(KoboToNaira(kobo)) == kobo
    ensures NgnToKobo(KoboToNaira(kobo)) == kobo
  {
  }

  /** Truncation falls short in magnitude, by less than one kobo, so for a payment the parsed amount is the
      rounded one or one kobo less. */
  lemma TruncationError(naira: real)
    ensures 0.0 <= naira ==> 0.0 <= naira * 100.0 - WebhookKobo(naira) as real < 1.0
    ensures naira <= 0.0 ==> -1.0 < naira * 100.0 - WebhookKobo(naira) as real <= 0.0
    ensures 0.0 <= naira ==> WebhookKobo(naira) <= NgnToKobo(naira) <= WebhookKobo(naira) + 1
  {
  }

  function SumNaira(inputs: seq<real>): real {
    if inputs == [] then 0.0 else inputs[0] + SumNaira(inputs[1..])
  }

  function SumKobo(inputs: seq<real>): int {
    if inputs == [] then 0 else WebhookKobo(inputs[0]) + SumKobo(inputs[1..])
  }

  /** Over any number of webhook amounts the parser's total is off by less than one kobo per amount, and
      for payments (none negative) the error is never in the user's favour. */
  lemma {:induction false} TruncationLoss(inputs: seq<real>)
    ensures inputs != [] ==>
              -(|inputs| as real) < SumNaira(inputs) * 100.0 - SumKobo(inputs) as real < |inputs| as real
    ensures (forall x :: x in inputs ==> 0.0 <= x) ==> 0.0 <= SumNaira(inputs) * 100.0 - SumKobo(inputs) as real
  {
    if inputs != [] {
      TruncationError(inputs[0]);
      TruncationLoss(inputs[1..]);
      assert SumNaira(inputs) * 100.0 == inputs[0] * 100.0 + SumNaira(inputs[1..]) * 100.0;
      if forall x :: x in inputs ==> 0.0 <= x {
        assert forall x :: x in inputs[1..] ==> x in inputs;
        assert inputs[0] in inputs;
      }
    }
  }
}
