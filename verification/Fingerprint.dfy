/** The text that is hashed to recognise a repeated request. SHA-256 is taken to be collision free, so
    two fingerprints are equal exactly when these texts are. */
module Fingerprint {
  import opened Domain

  const NUL: char := '\0'

  function Digit(d: nat): char
    requires d < 10
  {
    "0123456789"[d]
  }

  /** %d */
  function Decimal(n: nat): string {
    if n < 10 then [Digit(n)] else Decimal(n / 10) + [Digit(n % 10)]
  }

  /** fingerprint: sale, user and quantity joined by NUL. */
  function ReservationText(saleId: Id, userId: Id, quantity: nat): string {
    saleId.text + [NUL] + userId.text + [NUL] + Decimal(quantity)
  }

  function OutcomeText(outcome: Outcome): string {
    match outcome
    case Successful => "successful"
    case Failed => "failed"
    case Delayed => "delayed"
  }

  function PaymentText(orderId: Id, outcome: Outcome): string {
    orderId.text + [NUL] + OutcomeText(outcome)
  }

  lemma DigitInjective(a: nat, b: nat)
    requires a < 10 && b < 10 && Digit(a) == Digit(b)
    ensures a == b
  {
    var digits := "0123456789";
    assert forall i, j :: 0 <= i < j < 10 ==> digits[i] != digits[j];
  }

  lemma {:induction false} DecimalHasNoNul(n: nat)
    ensures NUL !in Decimal(n)
  {
    if n >= 10 {
      DecimalHasNoNul(n / 10);
    }
  }

  lemma {:induction false} DecimalInjective(a: nat, b: nat)
    requires Decimal(a) == Decimal(b)
    ensures a == b
  {
    var x, y := Decimal(a), Decimal(b);
    assert x[|x| - 1] == Digit(a % 10) && y[|y| - 1] == Digit(b % 10);
    DigitInjective(a % 10, b % 10);
    if a >= 10 && b >= 10 {
      assert Decimal(a / 10) == x[..|x| - 1] == y[..|y| - 1] == Decimal(b / 10);
      DecimalInjective(a / 10, b / 10);
    }
  }

  function Pow10(k: nat): nat {
    if k == 0 then 1 else 10 * Pow10(k - 1)
  }

  lemma {:induction false} Pow10Positive(k: nat)
    ensures Pow10(k) >= 1
  {
    if k > 0 {
      Pow10Positive(k - 1);
    }
  }

  lemma {:induction false} DecimalLength(n: nat, k: nat)
    requires n < Pow10(k) && k >= 1
    ensures 1 <= |Decimal(n)| <= k
  {
    if n >= 10 {
      assert k > 1 by {
        assert Pow10(1) == 10 * Pow10(0);
      }
      DecimalLength(n / 10, k - 1);
    }
  }

  /** A text has only one split at its last NUL. */
  lemma SplitAtLastNul(a: string, x: string, b: string, y: string)
    requires a + [NUL] + x == b + [NUL] + y
    requires NUL !in x && NUL !in y
    ensures a == b && x == y
  {
    var s, t := a + [NUL] + x, b + [NUL] + y;
    assert s[|a|] == NUL && t[|b|] == NUL;
    assert a == s[..|a|] && b == t[..|b|];
    assert x == s[|a| + 1..] && y == t[|b| + 1..];
  }

  /** replayReservation's test (same user and same fingerprint) accepts exactly the same request, even
      when the texts contain NUL. */
  lemma SameReservationRequest(s1: Id, u1: Id, q1: nat, s2: Id, u2: Id, q2: nat)
    ensures (u1 == u2 && ReservationText(s1, u1, q1) == ReservationText(s2, u2, q2))
            <==> (s1 == s2 && u1 == u2 && q1 == q2)
  {
    if u1 == u2 && ReservationText(s1, u1, q1) == ReservationText(s2, u2, q2) {
      DecimalHasNoNul(q1);
      DecimalHasNoNul(q2);
      SplitAtLastNul(s1.text + [NUL] + u1.text, Decimal(q1), s2.text + [NUL] + u2.text, Decimal(q2));
      DecimalInjective(q1, q2);
      var x, y := s1.text + [NUL] + u1.text, s2.text + [NUL] + u2.text;
      assert s1.text == x[..|x| - 1 - |u1.text|];
      assert s2.text == y[..|y| - 1 - |u2.text|];
    }
  }

  /** The fingerprint alone would not do: NUL inside an id moves text from one field to the next. */
  lemma FingerprintAloneIsAmbiguous()
    ensures ReservationText(Id(['a', NUL, 'b']), Id("c"), 1) == ReservationText(Id("a"), Id(['b', NUL, 'c']), 1)
  {
    assert ['a', NUL, 'b'] + [NUL] + "c" == "a" + [NUL] + ['b', NUL, 'c'];
  }

  lemma OutcomeTextInjective(a: Outcome, b: Outcome)
    ensures NUL !in OutcomeText(a)
    ensures OutcomeText(a) == OutcomeText(b) ==> a == b
  {
    assert |OutcomeText(Successful)| == 10 && |OutcomeText(Failed)| == 6 && |OutcomeText(Delayed)| == 7;
  }

  /** SimulatePayment's test accepts exactly the same order and outcome. */
  lemma SamePaymentRequest(o1: Id, a: Outcome, o2: Id, b: Outcome)
    ensures PaymentText(o1, a) == PaymentText(o2, b) <==> o1 == o2 && a == b
  {
    OutcomeTextInjective(a, b);
    OutcomeTextInjective(b, a);
    if PaymentText(o1, a) == PaymentText(o2, b) {
      SplitAtLastNul(o1.text, OutcomeText(a), o2.text, OutcomeText(b));
    }
  }
}
