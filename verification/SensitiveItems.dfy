/** What counts as an email, a phone or order number, a key, a token or a JWT, told by characters and positions. */
module SensitiveItems {
  import opened Text

  predicate IsAlnum(c: char) { IsLetter(c) || IsDigit(c) }

  /** A word begins or ends at `i`. */
  predicate WordEdge(s: string, i: nat) {
    (0 < i <= |s| && IsWord(s[i - 1])) != (i < |s| && IsWord(s[i]))
  }

  predicate All(s: string, i: nat, j: nat, f: char -> bool) {
    i <= j <= |s| && forall k :: i <= k < j ==> f(s[k])
  }

  /** `word` stands at `i`, in any case. */
  predicate WordAtIgnoringCase(s: string, i: nat, word: string) {
    i + |word| <= |s| && forall k :: i <= k < i + |word| ==> LowerChar(s[k]) == word[k - i]
  }

  // ---------------------------------------------------------------- emails

  predicate IsLocalChar(c: char) { IsAlnum(c) || c == '.' || c == '_' || c == '%' || c == '+' || c == '-' }

  predicate IsDomainChar(c: char) { IsAlnum(c) || c == '.' || c == '-' }

  /** Local part up to `a`, at sign, domain up to `d`, dot, and two letters at least. */
  predicate EmailLayout(s: string, i: nat, a: nat, d: nat, j: nat) {
    && i < a && a + 1 < d && d + 3 <= j <= |s|
    && All(s, i, a, IsLocalChar) && s[a] == '@' && All(s, a + 1, d, IsDomainChar) && s[d] == '.'
    && All(s, d + 1, j, IsLetter)
  }

  ghost predicate IsEmail(s: string, i: nat, j: nat) {
    WordEdge(s, i) && WordEdge(s, j) && exists a: nat, d: nat :: EmailLayout(s, i, a, d, j)
  }

  // ---------------------------------------------------------------- phone numbers

  predicate IsPhoneFiller(c: char) { IsDigit(c) || IsSpace(c) || c == '(' || c == ')' || c == '.' || c == '-' }

  predicate IsPhoneSeparator(c: char) { IsSpace(c) || c == '-' || c == '.' }

  /** A plus sign, a digit, seven fillers at least, and a digit. */
  predicate IsInternational(s: string, i: nat, j: nat) {
    i + 10 <= j <= |s| && s[i] == '+' && IsDigit(s[i + 1]) && All(s, i + 2, j - 1, IsPhoneFiller) && IsDigit(s[j - 1])
  }

  /** Three digits from `a`, perhaps in brackets, then from `b` on a separator, three digits, a separator and four. */
  predicate NationalLayout(s: string, i: nat, a: nat, b: nat, j: nat) {
    && (a == i || (a == i + 1 && i < |s| && s[i] == '('))
    && All(s, a, a + 3, IsDigit)
    && (b == a + 3 || (b == a + 4 && a + 3 < |s| && s[a + 3] == ')'))
    && j == b + 9 <= |s|
    && IsPhoneSeparator(s[b]) && All(s, b + 1, b + 4, IsDigit) && IsPhoneSeparator(s[b + 4])
    && All(s, b + 5, j, IsDigit)
  }

  ghost predicate IsNational(s: string, i: nat, j: nat) { exists a: nat, b: nat :: NationalLayout(s, i, a, b, j) }

  /** A number of either kind, with no word character right before or after it. */
  ghost predicate IsPhone(s: string, i: nat, j: nat) {
    && i <= j <= |s| && !(0 < i && IsWord(s[i - 1])) && !(j < |s| && IsWord(s[j]))
    && (IsInternational(s, i, j) || IsNational(s, i, j))
  }

  // ---------------------------------------------------------------- order numbers

  predicate IsOrderChar(c: char) { IsAlnum(c) || c == '-' }

  /** `order` or `ord` up to `a`, at most one separator up to `b`, and a stretch with a digit at `d`. */
  predicate OrderLayout(s: string, i: nat, a: nat, b: nat, d: nat, j: nat) {
    && ((a == i + 5 && WordAtIgnoringCase(s, i, "order")) || (a == i + 3 && WordAtIgnoringCase(s, i, "ord")))
    && (b == a || (b == a + 1 && a < |s| && (s[a] == '-' || s[a] == '_')))
    && All(s, b, j, IsOrderChar) && b <= d < j && IsDigit(s[d])
  }

  ghost predicate IsOrder(s: string, i: nat, j: nat) {
    WordEdge(s, i) && WordEdge(s, j) && exists a: nat, b: nat, d: nat :: OrderLayout(s, i, a, b, d, j)
  }

  // ---------------------------------------------------------------- keys and tokens

  predicate IsWordOrDash(c: char) { IsWord(c) || c == '-' }

  /** `sk-`, a letter or digit, and seven more word characters or dashes at least. */
  predicate IsKey(s: string, i: nat, j: nat) {
    && WordEdge(s, i) && WordEdge(s, j) && i + 11 <= j <= |s|
    && s[i] == 's' && s[i + 1] == 'k' && s[i + 2] == '-' && IsAlnum(s[i + 3]) && All(s, i + 4, j, IsWordOrDash)
  }

  predicate IsTokenChar(c: char) {
    IsWord(c) || c == '.' || c == '~' || c == '+' || c == '/' || c == '=' || c == '-'
  }

  /** `bearer`, white space up to `m`, and eight token characters at least. */
  predicate BearerLayout(s: string, i: nat, m: nat, j: nat) {
    && WordAtIgnoringCase(s, i, "bearer") && i + 6 < m && m + 8 <= j <= |s|
    && All(s, i + 6, m, IsSpace) && All(s, m, j, IsTokenChar)
  }

  ghost predicate IsBearer(s: string, i: nat, j: nat) {
    WordEdge(s, i) && WordEdge(s, j) && exists m: nat :: BearerLayout(s, i, m, j)
  }

  /** Three parts of ten word characters or dashes at least, with dots at `x` and `y` between them. */
  predicate JwtLayout(s: string, i: nat, x: nat, y: nat, j: nat) {
    && i + 10 <= x && x + 11 <= y && y + 11 <= j <= |s| && s[x] == '.' && s[y] == '.'
    && All(s, i, x, IsWordOrDash) && All(s, x + 1, y, IsWordOrDash) && All(s, y + 1, j, IsWordOrDash)
  }

  ghost predicate IsJwt(s: string, i: nat, j: nat) {
    WordEdge(s, i) && WordEdge(s, j) && exists x: nat, y: nat :: JwtLayout(s, i, x, y, j)
  }
}
