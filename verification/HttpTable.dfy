/** Character classes and the transition table of the HTTP request parser. */
module HttpTable {

  // Character classes, with the source's numbers.
  const C_NUL := 0
  const C_SPACE := 1
  const C_WHITE := 2
  const C_CR := 3
  const C_LF := 4
  const C_COLON := 5
  const C_COMMA := 6
  const C_QUOTE := 7
  const C_BACKS := 8
  const C_SLASH := 9
  const C_PLUS := 10
  const C_MINUS := 11
  const C_POINT := 12
  const C_MARK := 13
  const C_PCT := 14
  const C_DIGIT := 15
  const C_ETC := 16
  const C_STAR := 17
  const C_ABDF := 18
  const C_E := 19
  const C_G := 20
  const C_T := 21
  const C_P := 22
  const C_H := 23
  const C_O := 24
  const C_S := 25
  const C_C := 26
  const C_N := 27
  const C_L := 28
  const C_USCORE := 29

  /** The class of a letter, given its place in the alphabet. */
  function LetterClass(n: int): int {
    if n == 0 || n == 1 || n == 3 || n == 5 then C_ABDF
    else if n == 2 then C_C
    else if n == 4 then C_E
    else if n == 6 then C_G
    else if n == 7 then C_H
    else if n == 11 then C_L
    else if n == 13 then C_N
    else if n == 14 then C_O
    else if n == 15 then C_P
    else if n == 18 then C_S
    else if n == 19 then C_T
    else C_ETC
  }

  /** The class of a byte; codes beyond ASCII are ordinary characters. */
  function ClassOf(c: int): int {
    if c >= 128 then C_ETC
    else if c < 32 then if c == 10 then C_LF else if c == 13 then C_CR else C_NUL
    else if 65 <= c <= 90 then LetterClass(c - 65)
    else if 97 <= c <= 122 then LetterClass(c - 97)
    else if 48 <= c <= 57 then C_DIGIT
    else if c == 32 then C_SPACE
    else if c == 34 then C_QUOTE
    else if c == 37 then C_PCT
    else if c == 42 then C_STAR
    else if c == 43 then C_PLUS
    else if c == 44 then C_COMMA
    else if c == 45 then C_MINUS
    else if c == 46 then C_POINT
    else if c == 47 then C_SLASH
    else if c == 58 then C_COLON
    else if c == 63 then C_MARK
    else if c == 92 then C_BACKS
    else if c == 95 then C_USCORE
    else if c == 127 then C_NUL
    else C_ETC
  }

  // States, with the source's numbers.
  const GO := 0
  const G1 := 1
  const G2 := 2
  const G3 := 3
  const P1 := 4
  const P2 := 5
  const P3 := 6
  const P4 := 7
  const PT := 8
  const H1 := 9
  const H2 := 10
  const H3 := 11
  const H4 := 12
  const H5 := 13
  const H6 := 14
  const H7 := 15
  const H8 := 16
  const EL := 17
  const ER := 18
  const HH := 19
  const HI := 20
  const C1 := 21
  const C2 := 22
  const C3 := 23
  const C4 := 24
  const C5 := 25
  const C6 := 26
  const C7 := 27
  const C8 := 28
  const C9 := 29
  const CA := 30
  const CB := 31
  const CC := 32
  const CD := 33
  const CE := 34
  const CF := 35
  const CG := 36
  const CV := 37
  const E1 := 38
  const E2 := 39
  const FI := 40
  const BT := 41

  // Actions, with the source's numbers.
  const BAD := -1
  const MG := -2
  const MP := -3
  const PE := -4
  const HA := -5
  const HB := -6
  const KH := -7
  const VH := -8
  const KC := -9
  const VC := -10
  const VE := -11
  const EA := -12
  const EB := -13
  const EH := -14
  const BC := -15
  const PC := -16
  const QS := -17
  const BH := -18
  const HK := -19
  const HV := -20

  function Only(k: int, wanted: int, code: int): int {
    if k == wanted then code else BAD
  }

  /** The class that leads from one state of a fixed word to the next. */
  function WordRow(s: int, k: int): int {
    if s == GO then if k == C_G then G1 else Only(k, C_P, P1)
    else if s == G1 then Only(k, C_E, G2)
    else if s == G2 then Only(k, C_T, G3)
    else if s == G3 then Only(k, C_SPACE, MG)
    else if s == P1 then Only(k, C_O, P2)
    else if s == P2 then Only(k, C_S, P3)
    else if s == P3 then Only(k, C_T, P4)
    else if s == P4 then Only(k, C_SPACE, MP)
    else if s == H1 then Only(k, C_H, H2)
    else if s == H2 then Only(k, C_T, H3)
    else if s == H3 then Only(k, C_T, H4)
    else if s == H4 then Only(k, C_P, H5)
    else if s == H5 then Only(k, C_SLASH, H6)
    else if s == H6 then Only(k, C_DIGIT, HA)
    else if s == H7 then Only(k, C_POINT, H8)
    else if s == H8 then Only(k, C_DIGIT, HB)
    else if s == EL then if k == C_CR then ER else Only(k, C_LF, C1)
    else Only(k, C_LF, C1)
  }

  function PathRow(k: int): int {
    if k == C_SPACE then PE
    else if k == C_MARK then QS
    else if k == C_PCT then E1
    else if k == C_COLON || k == C_COMMA || C_SLASH <= k <= C_POINT || k == C_DIGIT || k == C_ETC || C_ABDF <= k <= C_USCORE then PC
    else BAD
  }

  /** A character of a header name. */
  function KeyRow(k: int): int {
    if k == C_COLON then KH
    else if k == C_MINUS || k == C_ETC || C_ABDF <= k <= C_L then HK
    else BAD
  }

  /** The letter that goes on with "Content-Length" from each state on the way. */
  function NextLetter(s: int): int {
    if s == C1 then C_C
    else if s == C2 then C_O
    else if s == C3 || s == C6 || s == CB then C_N
    else if s == C4 || s == C7 || s == CD then C_T
    else if s == C5 || s == CA then C_E
    else if s == C8 then C_MINUS
    else if s == C9 then C_L
    else if s == CC then C_G
    else C_H
  }

  function HeaderRow(s: int, k: int): int {
    if s == HH then KeyRow(k)
    else if s == HI then
      if k == C_CR || k == C_LF then VH else if k == C_SPACE || k >= C_COLON then HV else BAD
    else if s == C1 && k == C_CR then FI
    else if s == C1 && k == C_LF then EH
    else if C1 <= s <= CE then if k == NextLetter(s) then s + 1 else KeyRow(k)
    else if s == CF then if k == C_COLON then CG else KeyRow(k)
    else if s == CG then Only(k, C_SPACE, KC)
    else if s == CV then if k == C_CR || k == C_LF then VE else Only(k, C_DIGIT, VC)
    else Only(k, C_LF, EH)
  }

  predicate HexClass(k: int) {
    k == C_DIGIT || k == C_ABDF || k == C_E || k == C_C
  }

  function BodyRow(k: int): int {
    if k == C_PCT then BH
    else if C_SPACE <= k <= C_LF || C_SLASH <= k <= C_POINT || k == C_DIGIT || k == C_ETC || C_ABDF <= k <= C_USCORE then BC
    else BAD
  }

  type State = s: int | GO <= s <= BT

  /** A state to go to, or a negative number: an action, or BAD. */
  function Table(s: State, k: int): (code: int)
    ensures code <= BT
  {
    if s == PT then PathRow(k)
    else if s <= ER then WordRow(s, k)
    else if s == E1 then if HexClass(k) then EA else BAD
    else if s == E2 then if HexClass(k) then EB else BAD
    else if s == BT then BodyRow(k)
    else HeaderRow(s, k)
  }
}
