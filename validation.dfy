/** The terminal-velocity guess check of the `btn-validar-vt` handler: a
    parsed guess is compared with the analytical terminal velocity under a 5%
    relative tolerance. */
module Validation {
  import opened Numerics
  import opened Drag

  /** The relative tolerance of the check. */
  const Tolerance: real := 0.05

  /** What `parseFloat` produced from the user's text. */
  datatype Parsed = NotANumber | Number(value: real)

  /** The three messages the handler can show. */
  datatype Verdict = InvalidInput | Correct | Incorrect

  /** The check as written: `|u - vt| / (vt === 0 ? 1 : vt) < 0.05`, after a
      NaN guess has been turned away. With vt = Infinity the quotient is NaN
      (or Infinity), and no comparison with NaN is true. */
  function ValidateGuess(guess: Parsed, vt: Speed): (r: Verdict)
    ensures r == InvalidInput <==> guess.NotANumber?
    ensures vt.Infinite? ==> r != Correct
    ensures guess.Number? && vt.Finite? && vt.value > 0.0 ==>
              (r == Correct <==> Abs(guess.value - vt.value) < Tolerance * vt.value)
    ensures guess.Number? && vt == Finite(0.0) ==> (r == Correct <==> Abs(guess.value) < Tolerance)
  {
    match guess
    case NotANumber => InvalidInput
    case Number(u) =>
      match vt
      case Infinite => Incorrect
      case Finite(w) =>
        var quotient := Abs(u - w) / (if w == 0.0 then 1.0 else w);
        assert w > 0.0 ==> (quotient < Tolerance <==> Abs(u - w) < Tolerance * w) by {
          if w > 0.0 { QuotientBelow(Abs(u - w), w); }
        }
        if quotient < Tolerance then Correct else Incorrect
  }

  /** Dividing by a positive reference compares against the scaled tolerance. */
  lemma QuotientBelow(d: real, w: real)
    requires w > 0.0
    ensures d / w < Tolerance <==> d < Tolerance * w
  {
    var q := d / w;
    assert q * w == d;
    assert (q - Tolerance) * w == d - Tolerance * w;
    if q < Tolerance {
      assert (q - Tolerance) * w < 0.0;
    } else {
      assert (q - Tolerance) * w >= 0.0;
    }
  }

  /** With a negative reference value the quotient is never positive, so the
      check as written accepts every guess. */
  lemma NegativeReferenceAcceptsAnyGuess(u: real, w: real)
    requires w < 0.0
    ensures ValidateGuess(Number(u), Finite(w)) == Correct
  {
    var quotient := Abs(u - w) / w;
    assert quotient * w == Abs(u - w);
    assert quotient <= 0.0;
  }

  /** The check measured against the magnitude of the reference value. */
  function ValidateGuessCorrected(guess: Parsed, vt: Speed): (r: Verdict)
    ensures r == InvalidInput <==> guess.NotANumber?
    ensures vt.Infinite? ==> r != Correct
    ensures guess.Number? && vt.Finite? && vt.value != 0.0 ==>
              (r == Correct <==> Abs(guess.value - vt.value) < Tolerance * Abs(vt.value))
    ensures guess.Number? && vt == Finite(0.0) ==> (r == Correct <==> Abs(guess.value) < Tolerance)
    ensures guess.Number? && vt.Finite? && vt.value > 0.0 ==> r == ValidateGuess(guess, vt)
  {
    match guess
    case NotANumber => InvalidInput
    case Number(u) =>
      match vt
      case Infinite => Incorrect
      case Finite(w) =>
        var quotient := Abs(u - w) / (if w == 0.0 then 1.0 else Abs(w));
        assert w != 0.0 ==> (quotient < Tolerance <==> Abs(u - w) < Tolerance * Abs(w)) by {
          if w != 0.0 { QuotientBelow(Abs(u - w), Abs(w)); }
        }
        if quotient < Tolerance then Correct else Incorrect
  }

  /** Under the corrected check an exact guess of a finite terminal velocity is
      accepted, and a guess that is off by at least 5% of its magnitude is
      refused, whatever the sign of the reference value. */
  lemma CorrectedCheckIsRelative(u: real, w: real)
    ensures ValidateGuessCorrected(Number(w), Finite(w)) == Correct
    ensures w != 0.0 && Abs(u - w) >= Tolerance * Abs(w) ==> ValidateGuessCorrected(Number(u), Finite(w)) == Incorrect
  {
  }

  /** Worked examples: a guess of 19.6 against 19.6 is accepted and a guess of
      25 is refused; against a reference of -19.6 a guess of 1000 is accepted as
      written and refused once corrected. */
  lemma ValidationExamples()
    ensures ValidateGuess(Number(19.6), Finite(19.6)) == Correct
    ensures ValidateGuess(Number(25.0), Finite(19.6)) == Incorrect
    ensures ValidateGuess(NotANumber, Finite(19.6)) == InvalidInput
    ensures ValidateGuess(Number(19.6), Infinite) == Incorrect
    ensures ValidateGuess(Number(1000.0), Finite(-19.6)) == Correct
    ensures ValidateGuessCorrected(Number(1000.0), Finite(-19.6)) == Incorrect
  {
    NegativeReferenceAcceptsAnyGuess(1000.0, -19.6);
  }
}
