/** The keys of the keyboard and their codes, row by row (src/Cinput/im_comm/keymap.c). */
module KeyRows {

  import opened Keymap

  const DIGITS := "1234567890"
  const ABOVE_DIGITS := "!@#$%^&*()"
  const SIGNS := "`-=[];',./\\"
  const ABOVE_SIGNS := "~_+{}:\"<>?|"

  /** The digits have the codes 1 to 10, and the signs above them the same. */
  lemma DigitKeys(i: nat)
    requires i < 10
    ensures |DIGITS| == |ABOVE_DIGITS| == 10 && CodeOf(DIGITS[i]) == CodeOf(ABOVE_DIGITS[i]) == i + 1 && KeyOf(i + 1) == DIGITS[i]
  {
  }

  /** Small letters have the codes 11 to 36, and capital letters the same. */
  lemma LetterKeys(i: nat)
    requires i < 26
    ensures CodeOf('a' + i as char) == CodeOf('A' + i as char) == 11 + i && KeyOf(11 + i) == 'a' + i as char
  {
  }

  /** The other signs have the codes 37 to 47, and those above them the same. */
  lemma SignKeys(i: nat)
    requires i < 11
    ensures |SIGNS| == |ABOVE_SIGNS| == 11 && CodeOf(SIGNS[i]) == CodeOf(ABOVE_SIGNS[i]) == 37 + i && KeyOf(37 + i) == SIGNS[i]
  {
  }

  predicate IsLetter(key: char) {
    'a' <= key <= 'z' || 'A' <= key <= 'Z'
  }

  /** Nothing else is a key. */
  lemma NoOtherKeys(key: char)
    requires key !in DIGITS && key !in ABOVE_DIGITS && key !in SIGNS && key !in ABOVE_SIGNS && !IsLetter(key)
    ensures CodeOf(key) == 0
  {
    if '0' <= key <= '9' {
      DigitIn(key);
    }
    RowsHave(key);
  }

  lemma DigitIn(key: char)
    requires '0' <= key <= '9'
    ensures key in DIGITS
  {
    assert DIGITS[if key == '0' then 9 else key as int - '1' as int] == key;
  }

  lemma RowsHave(key: char)
    ensures SignCode(key) != 0 ==> key in ABOVE_DIGITS || key in SIGNS || key in ABOVE_SIGNS
  {
    assert ABOVE_DIGITS[0] == '!' && ABOVE_DIGITS[1] == '@' && ABOVE_DIGITS[2] == '#' && ABOVE_DIGITS[3] == '$' && ABOVE_DIGITS[4] == '%';
    assert ABOVE_DIGITS[5] == '^' && ABOVE_DIGITS[6] == '&' && ABOVE_DIGITS[7] == '*' && ABOVE_DIGITS[8] == '(' && ABOVE_DIGITS[9] == ')';
    assert SIGNS[0] == '`' && SIGNS[1] == '-' && SIGNS[2] == '=' && SIGNS[3] == '[' && SIGNS[4] == ']' && SIGNS[5] == ';';
    assert SIGNS[6] == '\'' && SIGNS[7] == ',' && SIGNS[8] == '.' && SIGNS[9] == '/' && SIGNS[10] == '\\';
    assert ABOVE_SIGNS[0] == '~' && ABOVE_SIGNS[1] == '_' && ABOVE_SIGNS[2] == '+' && ABOVE_SIGNS[3] == '{' && ABOVE_SIGNS[4] == '}';
    assert ABOVE_SIGNS[5] == ':' && ABOVE_SIGNS[6] == '\"' && ABOVE_SIGNS[7] == '<' && ABOVE_SIGNS[8] == '>' && ABOVE_SIGNS[9] == '?';
    assert ABOVE_SIGNS[10] == '|';
  }
}
