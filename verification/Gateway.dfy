/** The payment gateway simulator: a pure function of the directive, so any worker can re-derive its answer. */
module Gateway {
  import opened Events

  /** From the environment of the payment service: any string, but the same one for every worker. */
  const PAYMENT_SIMULATE_DEFAULT: string

  const FAILURE := "failure"

  function LowerChar(c: char): char {
    if 'A' <= c <= 'Z' then c - 'A' + 'a' else c
  }

  function Lower(s: string): string {
    seq(|s|, i requires 0 <= i < |s| => LowerChar(s[i]))
  }

  function Directive(simulate: Option<string>): string {
    if simulate.Some? && simulate.value != "" then simulate.value else PAYMENT_SIMULATE_DEFAULT
  }

  /** True when the charge goes through. The amount plays no part. */
  function ProcessPayment(amount: int, simulate: Option<string>): bool {
    Lower(Directive(simulate)) != FAILURE
  }

  /** What the order service puts in the event: an empty header value is dropped. */
  function Carried(simulate: Option<string>): Option<string> {
    if simulate.Some? && simulate.value != "" then simulate else None
  }

  /** The seven letters of "failure", each in either case. */
  predicate SpellsFailure(s: string) {
    |s| == |FAILURE| && forall i :: 0 <= i < |FAILURE| ==> s[i] == FAILURE[i] || s[i] == FAILURE[i] - 'a' + 'A'
  }

  /** The charge's own directive, or the default where it has none, spells "failure". */
  predicate Declined(simulate: Option<string>) {
    SpellsFailure(if simulate.Some? && simulate.value != "" then simulate.value else PAYMENT_SIMULATE_DEFAULT)
  }

  /** A charge is declined exactly for that reason. */
  lemma DeclinedExactly(amount: int, simulate: Option<string>)
    ensures !ProcessPayment(amount, simulate) <==> Declined(simulate)
  {
    var v := Directive(simulate);
    if |v| == |FAILURE| {
      assert forall i :: 0 <= i < |v| ==> Lower(v)[i] == LowerChar(v[i]);
    }
  }

  /** Dropping an empty directive on the way, or seeing another amount, cannot change the answer. */
  lemma OutcomeCarried(amount: int, amount': int, simulate: Option<string>)
    ensures ProcessPayment(amount, Carried(simulate)) == ProcessPayment(amount', simulate)
  {
  }
}
