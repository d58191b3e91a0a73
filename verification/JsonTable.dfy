/** Character classes and the state transition table of the streaming JSON parser, comments off. */
module JsonTable {

  const TAB := 9
  const LINE_FEED := 10
  const RETURN := 13
  const SPACE := 32
  const QUOTE := 34
  const STAR := 42
  const PLUS := 43
  const COMMA := 44
  const MINUS := 45
  const POINT := 46
  const SLASH := 47
  const ZERO := 48
  const COLON := 58
  const UPPER_E := 69
  const LEFT_SQUARE := 91
  const BACKSLASH := 92
  const RIGHT_SQUARE := 93
  const LOWER_A := 97
  const LOWER_B := 98
  const LOWER_E := 101
  const LOWER_F := 102
  const LOWER_L := 108
  const LOWER_N := 110
  const LOWER_R := 114
  const LOWER_S := 115
  const LOWER_T := 116
  const LOWER_U := 117
  const LEFT_CURLY := 123
  const RIGHT_CURLY := 125

  // Character classes, with the source's numbers.
  const C_CONTROL := -1
  const C_SPACE := 0
  const C_WHITE := 1
  const C_LCURB := 2
  const C_RCURB := 3
  const C_LSQRB := 4
  const C_RSQRB := 5
  const C_COLON := 6
  const C_COMMA := 7
  const C_QUOTE := 8
  const C_BACKS := 9
  const C_SLASH := 10
  const C_PLUS := 11
  const C_MINUS := 12
  const C_POINT := 13
  const C_ZERO := 14
  const C_DIGIT := 15
  const C_LOW_A := 16
  const C_LOW_B := 17
  const C_LOW_C := 18
  const C_LOW_D := 19
  const C_LOW_E := 20
  const C_LOW_F := 21
  const C_LOW_L := 22
  const C_LOW_N := 23
  const C_LOW_R := 24
  const C_LOW_S := 25
  const C_LOW_T := 26
  const C_LOW_U := 27
  const C_ABCDF := 28
  const C_E := 29
  const C_ETC := 30
  const C_STAR := 31

  /** The class array; every code beyond ASCII counts as an ordinary character. */
  function ClassOf(c: int): int {
    if c >= 128 then C_ETC
    else if c < SPACE then if c == TAB || c == LINE_FEED || c == RETURN then C_WHITE else C_CONTROL
    else if c == SPACE then C_SPACE
    else if c == QUOTE then C_QUOTE
    else if c == STAR then C_STAR
    else if c == PLUS then C_PLUS
    else if c == COMMA then C_COMMA
    else if c == MINUS then C_MINUS
    else if c == POINT then C_POINT
    else if c == SLASH then C_SLASH
    else if c == ZERO then C_ZERO
    else if ZERO < c < COLON then C_DIGIT
    else if c == COLON then C_COLON
    else if c == UPPER_E then C_E
    else if 65 <= c <= 70 then C_ABCDF
    else if c == LEFT_SQUARE then C_LSQRB
    else if c == BACKSLASH then C_BACKS
    else if c == RIGHT_SQUARE then C_RSQRB
    else if c == LOWER_A then C_LOW_A
    else if c == LOWER_B then C_LOW_B
    else if c == 99 then C_LOW_C
    else if c == 100 then C_LOW_D
    else if c == LOWER_E then C_LOW_E
    else if c == LOWER_F then C_LOW_F
    else if c == LOWER_L then C_LOW_L
    else if c == LOWER_N then C_LOW_N
    else if c == LOWER_R then C_LOW_R
    else if c == LOWER_S then C_LOW_S
    else if c == LOWER_T then C_LOW_T
    else if c == LOWER_U then C_LOW_U
    else if c == LEFT_CURLY then C_LCURB
    else if c == RIGHT_CURLY then C_RCURB
    else C_ETC
  }

  predicate IsWhite(c: int) {
    c == SPACE || c == TAB || c == LINE_FEED || c == RETURN
  }

  predicate IsDigit(c: int) {
    ZERO <= c < COLON
  }

  predicate IsHex(c: int) {
    IsDigit(c) || 65 <= c <= 70 || 97 <= c <= 102
  }

  // States, with the source's numbers; those of comments are not part of this model.
  const GO := 0
  const OK := 1
  const OB := 2
  const KE := 3
  const CO := 4
  const VA := 5
  const AR := 6
  const ST := 7
  const ES := 8
  const U1 := 9
  const U2 := 10
  const U3 := 11
  const U4 := 12
  const MI := 13
  const ZE := 14
  const IT := 15
  const FR := 16
  const E1 := 17
  const E2 := 18
  const E3 := 19
  const T1 := 20
  const T2 := 21
  const T3 := 22
  const F1 := 23
  const F2 := 24
  const F3 := 25
  const F4 := 26
  const N1 := 27
  const N2 := 28
  const N3 := 29
  const FX := 33
  const D1 := 34
  const D2 := 35

  // Actions, with the source's numbers: a negative entry of the table.
  const BAD := -1
  const KEY_VALUE := -2
  const NEXT_ENTRY := -3
  const STRING_END := -4
  const ARRAY_BEGIN := -5
  const OBJECT_BEGIN := -6
  const ARRAY_END := -7
  const OBJECT_END := -8
  const EMPTY_OBJECT_END := -9
  const COMMENT_BEGIN := -10
  const FALSE_BEGIN := -12
  const TRUE_BEGIN := -13
  const NULL_BEGIN := -14
  const EXPONENT_BEGIN := -15
  const FRACTION_BEGIN := -16
  const STRING_BEGIN := -17
  const INTEGER_MINUS := -18
  const INTEGER_ZERO := -19
  const INTEGER_DIGIT := -20
  const ESCAPED := -21
  const CODE_UNIT := -22

  predicate WhiteClass(k: int) {
    k == C_SPACE || k == C_WHITE
  }

  predicate DigitClass(k: int) {
    k == C_ZERO || k == C_DIGIT
  }

  predicate ExponentClass(k: int) {
    k == C_LOW_E || k == C_E
  }

  predicate HexClass(k: int) {
    C_ZERO <= k <= C_LOW_F || k == C_ABCDF || k == C_E
  }

  /** Exactly one class leads on. */
  function Only(k: int, wanted: int, code: int): int {
    if k == wanted then code else BAD
  }

  /** The entries shared by the rows of every state in which a value may just have ended. */
  function EndRow(k: int): int {
    if WhiteClass(k) then OK
    else if k == C_RCURB then OBJECT_END
    else if k == C_RSQRB then ARRAY_END
    else Only(k, C_COMMA, NEXT_ENTRY)
  }

  function ValueRow(s: int, k: int): int {
    if WhiteClass(k) then s
    else if k == C_LCURB then OBJECT_BEGIN
    else if k == C_LSQRB then ARRAY_BEGIN
    else if k == C_RSQRB && s == AR then ARRAY_END
    else if k == C_QUOTE then STRING_BEGIN
    else if k == C_SLASH then COMMENT_BEGIN
    else if k == C_MINUS then INTEGER_MINUS
    else if k == C_ZERO then INTEGER_ZERO
    else if k == C_DIGIT then INTEGER_DIGIT
    else if k == C_LOW_F then FALSE_BEGIN
    else if k == C_LOW_N then NULL_BEGIN
    else Only(k, C_LOW_T, TRUE_BEGIN)
  }

  function StringRow(k: int): int {
    if k == C_QUOTE then STRING_END
    else if k == C_BACKS then ESCAPED
    else if k == C_WHITE then BAD
    else ST
  }

  function EscapeRow(k: int): int {
    if k == C_LOW_U then U1
    else if k == C_QUOTE || k == C_BACKS || k == C_SLASH || k == C_LOW_B || k == C_LOW_F || k == C_LOW_N
         || k == C_LOW_R || k == C_LOW_T then ST
    else BAD
  }

  /** Rows of the states between tokens. */
  function RestRow(s: int, k: int): int {
    if s == VA || s == AR then ValueRow(s, k)
    else if s == OK then if k == C_SLASH then COMMENT_BEGIN else EndRow(k)
    else if WhiteClass(k) then s
    else if k == C_SLASH then COMMENT_BEGIN
    else if s == GO then if k == C_LCURB then OBJECT_BEGIN else Only(k, C_LSQRB, ARRAY_BEGIN)
    else if s == OB then if k == C_RCURB then EMPTY_OBJECT_END else Only(k, C_QUOTE, STRING_BEGIN)
    else if s == KE then Only(k, C_QUOTE, STRING_BEGIN)
    else Only(k, C_COLON, KEY_VALUE)
  }

  /** Rows of the states inside a string. */
  function TextRow(s: int, k: int): int {
    if s == ST then StringRow(k)
    else if s == ES then EscapeRow(k)
    else if s == U1 then if HexClass(k) then U2 else BAD
    else if s == U2 then if HexClass(k) then U3 else BAD
    else if s == U3 then if HexClass(k) then U4 else BAD
    else if s == U4 then if HexClass(k) then CODE_UNIT else BAD
    else if s == D1 then Only(k, C_BACKS, D2)
    else Only(k, C_LOW_U, U1)
  }

  /** Rows of the states inside a number. */
  function NumberRow(s: int, k: int): int {
    if s == MI then if k == C_ZERO then ZE else Only(k, C_DIGIT, IT)
    else if s == ZE then
      if k == C_POINT then FRACTION_BEGIN else if k == C_SLASH then COMMENT_BEGIN else EndRow(k)
    else if s == IT then
      if DigitClass(k) then IT
      else if k == C_POINT then FRACTION_BEGIN
      else if ExponentClass(k) then EXPONENT_BEGIN
      else if k == C_SLASH then COMMENT_BEGIN
      else EndRow(k)
    else if s == FX then
      if DigitClass(k) then FR else if ExponentClass(k) then E1 else EndRow(k)
    else if s == FR then
      if DigitClass(k) then FR
      else if ExponentClass(k) then E1
      else if k == C_SLASH then COMMENT_BEGIN
      else EndRow(k)
    else if s == E1 then
      if DigitClass(k) then E3 else if k == C_PLUS || k == C_MINUS then E2 else BAD
    else if s == E2 then if DigitClass(k) then E3 else BAD
    else if DigitClass(k) then E3 else EndRow(k)
  }

  /** Rows of the states inside a literal. */
  function WordRow(s: int, k: int): int {
    if k == C_SLASH then if s == T3 || s == F4 || s == N3 then COMMENT_BEGIN else BAD
    else if s == T1 then Only(k, C_LOW_R, T2)
    else if s == T2 then Only(k, C_LOW_U, T3)
    else if s == T3 then Only(k, C_LOW_E, OK)
    else if s == F1 then Only(k, C_LOW_A, F2)
    else if s == F2 then Only(k, C_LOW_L, F3)
    else if s == F3 then Only(k, C_LOW_S, F4)
    else if s == F4 then Only(k, C_LOW_E, OK)
    else if s == N1 then Only(k, C_LOW_U, N2)
    else if s == N2 then Only(k, C_LOW_L, N3)
    else Only(k, C_LOW_L, OK)
  }

  predicate RestState(s: int) {
    GO <= s <= AR
  }

  predicate TextState(s: int) {
    ST <= s <= U4 || s == D1 || s == D2
  }

  predicate NumberState(s: int) {
    MI <= s <= E3 || s == FX
  }

  predicate WordState(s: int) {
    T1 <= s <= N3
  }

  type State = s: int | 0 <= s && (RestState(s) || TextState(s) || NumberState(s) || WordState(s))

  /** A state to go to, or a negative number: an action, or BAD. */
  function Table(s: State, k: int): (code: int)
    ensures code >= 0 ==> RestState(code) || TextState(code) || NumberState(code) || WordState(code)
  {
    if RestState(s) then RestRow(s, k)
    else if TextState(s) then TextRow(s, k)
    else if NumberState(s) then NumberRow(s, k)
    else WordRow(s, k)
  }
}
