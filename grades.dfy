/** The grades the scorer writes: the letters "A" to "E" and the sentinel "N/A". */
module Grades {
  import opened Wrappers

  /** A grade string: "A" (best) to "E" (worst), or "N/A" when there is no grade. */
  datatype Grade = A | B | C | D | E | NA

  /** `get_grade_score`: the position of a letter in "ABCDE", and None for "N/A". */
  function GradeScore(g: Grade): (s: Option<nat>)
    ensures s.None? <==> g == NA
    ensures s.Some? ==> s.value < 5
  {
    match g
    case A => Some(0)
    case B => Some(1)
    case C => Some(2)
    case D => Some(3)
    case E => Some(4)
    case NA => None
  }

  /** The position of a letter in "ABCDE": 0 for the best grade, 4 for the worst. */
  function Rank(g: Grade): (k: nat)
    requires g != NA
    ensures k < 5
  {
    GradeScore(g).value
  }

  /** `"ABCDE"[i]`. */
  function Letter(i: nat): (g: Grade)
    requires i < 5
    ensures g != NA
  {
    [A, B, C, D, E][i]
  }

  /** Indexing "ABCDE" and looking a letter up in it are inverse to each other. */
  lemma LetterRoundTrip(i: nat, g: Grade)
    requires i < 5 && g != NA
    ensures Rank(Letter(i)) == i
    ensures Letter(Rank(g)) == g
  {
  }
}
