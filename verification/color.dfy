/** The two stone colours and their complement (src/reversi/color.rs). */
module Colors {

  datatype Color = Black | White

  /** The other face of a stone. */
  function Rev(c: Color): (r: Color)
    ensures r != c
  {
    match c
    case Black => White
    case White => Black
  }

  /** Turning a stone over twice shows the original face. */
  lemma RevInvolution(c: Color)
    ensures Rev(Rev(c)) == c
  {
  }

  /** With only two colours, whatever is not c is Rev(c): the scans rely on this
      when they treat "not my colour" as "the opponent's colour". */
  lemma OtherIsRev(c: Color, other: Color)
    ensures other != c <==> other == Rev(c)
  {
  }

  /** Rev is a bijection: distinct colours have distinct complements. */
  lemma RevInjective(a: Color, b: Color)
    ensures Rev(a) == Rev(b) <==> a == b
  {
  }
}
