/** The character classes the source asks Python's `str` methods about,
    restricted to ASCII (Unicode letters, digits and spaces are not modelled). */
module CharClasses {

  predicate IsUpper(c: char) { 'A' <= c <= 'Z' }

  predicate IsLower(c: char) { 'a' <= c <= 'z' }

  /** `str.isalpha` */
  predicate IsAlpha(c: char) { IsUpper(c) || IsLower(c) }

  /** `str.isdigit` */
  predicate IsDigit(c: char) { '0' <= c <= '9' }

  /** `str.isalnum` */
  predicate IsAlnum(c: char) { IsAlpha(c) || IsDigit(c) }

  /** `str.isprintable`: the visible ASCII characters and the space. */
  predicate IsPrintable(c: char) { ' ' <= c <= '~' }

  /** `str.isspace` */
  predicate IsSpace(c: char) {
    c == ' ' || c == '\t' || c == '\n' || c == '\r' || c == '\U{0B}' || c == '\U{0C}'
  }

  /** A character that may continue a word or a keyword. */
  predicate IsWordChar(c: char) { IsAlnum(c) || c == '_' }
}
