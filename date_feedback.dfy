/**
 * `get_date_feedback`: a three-outcome validator of a predicted date. The
 * prediction must have the shape of `\d{4}-\d{2}-\d{2}` (checked with a
 * full regular-expression match, ASCII digits only) and is then compared
 * with today's date as `%Y-%m-%d`, which the caller supplies.
 */
module DateFeedback {

  const FormatError: string := "Error: Date format incorrect. Expected YYYY-MM-DD."
  const Success: string := "Success!"
  const WrongDate: string := "Error: Wrong date."

  predicate IsDigit(c: char) {
    '0' <= c <= '9'
  }

  /** One atom of a regular expression: `\d` or a literal character. */
  datatype Atom = AnyDigit | Literal(c: char)

  /** An atom repeated an exact number of times, as in `\d{4}`. */
  datatype Piece = Piece(atom: Atom, count: nat)

  predicate AtomMatches(a: Atom, c: char) {
    match a
    case AnyDigit => IsDigit(c)
    case Literal(l) => c == l
  }

  /** The pattern `\d{4}-\d{2}-\d{2}`; the anchors are implied by a full match. */
  const DatePattern: seq<Piece> :=
    [Piece(AnyDigit, 4), Piece(Literal('-'), 1), Piece(AnyDigit, 2), Piece(Literal('-'), 1), Piece(AnyDigit, 2)]

  /** `re.fullmatch` of a sequence of exact-count pieces: the whole string is consumed. */
  predicate FullMatch(p: seq<Piece>, s: string)
    decreases |p|
  {
    if p == [] then s == []
    else
      var n := p[0].count;
      n <= |s| && (forall i :: 0 <= i < n ==> AtomMatches(p[0].atom, s[i])) && FullMatch(p[1..], s[n..])
  }

  /** The shape YYYY-MM-DD stated position by position; no range check of month or day. */
  predicate IsDateShaped(s: string) {
    && |s| == 10
    && s[4] == '-' && s[7] == '-'
    && forall i :: 0 <= i < 10 && i != 4 && i != 7 ==> IsDigit(s[i])
  }

  /** A piece of `n` copies of an atom matches the first `n` characters exactly when each does. */
  lemma FullMatchStep(p: seq<Piece>, s: string)
    requires p != []
    ensures FullMatch(p, s) <==>
      p[0].count <= |s| && (forall i :: 0 <= i < p[0].count ==> AtomMatches(p[0].atom, s[i])) && FullMatch(p[1..], s[p[0].count..])
  {
  }

  /** The regular expression accepts exactly the strings of shape YYYY-MM-DD. */
  lemma DatePatternMatchesShape(s: string)
    ensures FullMatch(DatePattern, s) <==> IsDateShaped(s)
  {
    var p1, p2, p3, p4 := DatePattern[1..], DatePattern[2..], DatePattern[3..], DatePattern[4..];
    assert p4[1..] == [];
    FullMatchStep(DatePattern, s);
    if |s| >= 4 {
      FullMatchStep(p1, s[4..]);
      if |s| >= 5 {
        FullMatchStep(p2, s[5..]);
        if |s| >= 7 {
          FullMatchStep(p3, s[7..]);
          if |s| >= 8 {
            FullMatchStep(p4, s[8..]);
          }
        }
      }
    }
    if IsDateShaped(s) {
      assert forall i :: 0 <= i < 2 ==> s[8..][i] == s[8 + i];
      assert forall i :: 0 <= i < 2 ==> s[5..][i] == s[5 + i];
    }
    if FullMatch(DatePattern, s) {
      forall i | 0 <= i < 10 && i != 4 && i != 7
        ensures IsDigit(s[i])
      {
        if i >= 8 {
          assert s[8..][i - 8] == s[i];
        } else if i >= 5 {
          assert s[5..][i - 5] == s[i];
        }
      }
    }
  }

  /**
   * `get_date_feedback(predict)` with today's `%Y-%m-%d` string passed in.
   * Exactly one of the three messages is returned.
   */
  function GetDateFeedback(predict: string, today: string): (r: string)
    ensures r == FormatError <==> !IsDateShaped(predict)
    ensures r == Success <==> IsDateShaped(predict) && predict == today
    ensures r == WrongDate <==> IsDateShaped(predict) && predict != today
  {
    DatePatternMatchesShape(predict);
    if !FullMatch(DatePattern, predict) then FormatError
    else if predict == today then Success
    else WrongDate
  }

  /** Only the shape is checked: an impossible month and day pass the format check. */
  lemma NoCalendarCheck(today: string)
    ensures GetDateFeedback("2024-13-99", today) != FormatError
  {
    assert IsDateShaped("2024-13-99");
  }

  /** Once today's string has the usual shape, success means the prediction is today. */
  lemma SuccessIffToday(predict: string, today: string)
    requires IsDateShaped(today)
    ensures GetDateFeedback(predict, today) == Success <==> predict == today
  {
  }
}
