/** Vocabulary shared by every module: optional values, results and the string
    operations of Go's `strings` and `fmt` packages that the executor relies on. */
module Common {

  datatype Option<+T> = None | Some(value: T)

  datatype Result<+T, +E> = Ok(value: T) | Err(error: E)

  predicate HasPrefix(s: string, prefix: string) {
    prefix <= s
  }

  predicate HasSuffix(s: string, suffix: string) {
    |suffix| <= |s| && s[|s| - |suffix|..] == suffix
  }

  /** `strings.TrimPrefix`: removes one occurrence. */
  function TrimPrefix(s: string, prefix: string): string {
    if HasPrefix(s, prefix) then s[|prefix|..] else s
  }

  /** `strings.TrimSuffix`: removes one occurrence. */
  function TrimSuffix(s: string, suffix: string): string {
    if HasSuffix(s, suffix) then s[..|s| - |suffix|] else s
  }

  const DIGITS := "0123456789"

  /** The rendering of a natural number under `%d`. */
  function Decimal(n: nat): (s: string)
    ensures |s| > 0
  {
    if n < 10 then [DIGITS[n]] else Decimal(n / 10) + [DIGITS[n % 10]]
  }

  lemma {:induction false} DecimalInjective(m: nat, n: nat)
    requires Decimal(m) == Decimal(n)
    ensures m == n
  {
    var s, t := Decimal(m), Decimal(n);
    assert s[|s| - 1] == DIGITS[m % 10] && t[|t| - 1] == DIGITS[n % 10];
    assert m % 10 == n % 10;
    if m >= 10 && n >= 10 {
      assert s[..|s| - 1] == Decimal(m / 10) && t[..|t| - 1] == Decimal(n / 10);
      DecimalInjective(m / 10, n / 10);
    }
  }

  /** `unicode.IsSpace`. */
  predicate IsSpace(c: char) {
    || '\U{0009}' <= c <= '\U{000D}' || c == ' ' || c == '\U{0085}' || c == '\U{00A0}' || c == '\U{1680}'
    || '\U{2000}' <= c <= '\U{200A}' || c == '\U{2028}' || c == '\U{2029}' || c == '\U{202F}' || c == '\U{205F}' || c == '\U{3000}'
  }

  /** The code points that Unicode counts as white space. */
  const BLANKS := {9, 10, 11, 12, 13, 32, 133, 160, 5760, 8192, 8193, 8194, 8195, 8196, 8197, 8198, 8199, 8200, 8201, 8202,
                   8232, 8233, 8239, 8287, 12288}

  predicate Blank(c: char) {
    c as int in BLANKS
  }

  predicate AllBlank(s: string) {
    forall i | 0 <= i < |s| :: Blank(s[i])
  }

  lemma {:induction false} IsSpaceIsBlank(c: char)
    ensures IsSpace(c) <==> Blank(c)
  {
    var n := c as int;
    assert c == n as char;
  }

  /** What a string of digits is worth. */
  function Worth(s: string): int {
    if s == "" then 0 else 10 * Worth(s[..|s| - 1]) + (s[|s| - 1] as int - '0' as int)
  }

  /** The rendering is the decimal numeral of the number, without leading zeros. */
  lemma {:induction false} DecimalIsNumeral(n: nat)
    ensures Worth(Decimal(n)) == n
    ensures forall i :: 0 <= i < |Decimal(n)| ==> '0' <= Decimal(n)[i] <= '9'
    ensures n > 0 ==> Decimal(n)[0] != '0'
    decreases n
  {
    var s := Decimal(n);
    assert DIGITS[n % 10] as int == '0' as int + n % 10;
    if n < 10 {
      assert s[..0] == "" && Worth(s[..0]) == 0;
    } else {
      DecimalIsNumeral(n / 10);
      assert s[..|s| - 1] == Decimal(n / 10);
    }
  }

  function TrimLeft(s: string): string {
    if s != "" && IsSpace(s[0]) then TrimLeft(s[1..]) else s
  }

  function TrimRight(s: string): string {
    if s != "" && IsSpace(s[|s| - 1]) then TrimRight(s[..|s| - 1]) else s
  }

  /** `strings.TrimSpace`. */
  function TrimSpace(s: string): string {
    TrimRight(TrimLeft(s))
  }

  lemma {:induction false} TrimLeftDropsBlanks(s: string) returns (pre: string)
    ensures s == pre + TrimLeft(s) && AllBlank(pre)
    ensures TrimLeft(s) != "" ==> !Blank(TrimLeft(s)[0])
    decreases |s|
  {
    pre := "";
    if s != "" {
      IsSpaceIsBlank(s[0]);
      if IsSpace(s[0]) {
        var rest := TrimLeftDropsBlanks(s[1..]);
        pre := [s[0]] + rest;
      }
    }
  }

  lemma {:induction false} TrimRightDropsBlanks(s: string) returns (post: string)
    ensures s == TrimRight(s) + post && AllBlank(post)
    ensures TrimRight(s) != "" ==> !Blank(TrimRight(s)[|TrimRight(s)| - 1])
    decreases |s|
  {
    post := "";
    if s != "" {
      IsSpaceIsBlank(s[|s| - 1]);
      if IsSpace(s[|s| - 1]) {
        var rest := TrimRightDropsBlanks(s[..|s| - 1]);
        post := rest + [s[|s| - 1]];
      }
    }
  }

  /** Trimming takes the blanks off both ends and nothing else. */
  lemma {:induction false} TrimSpaceDropsBlanks(s: string)
    ensures var t := TrimSpace(s);
            && (exists pre, post :: s == pre + t + post && AllBlank(pre) && AllBlank(post))
            && (t != "" ==> !Blank(t[0]) && !Blank(t[|t| - 1]))
  {
    var pre := TrimLeftDropsBlanks(s);
    var post := TrimRightDropsBlanks(TrimLeft(s));
    assert s == pre + TrimSpace(s) + post;
    if TrimSpace(s) != "" {
      assert TrimLeft(s)[0] == TrimSpace(s)[0];
    }
  }

  /** Membership in a pattern of the validators: a literal, or a prefix written with a final `*`. */
  ghost predicate InPattern(word: string, pattern: string) {
    word == pattern || exists prefix, rest :: pattern == prefix + "*" && word == prefix + rest
  }

  lemma {:induction false} PrefixPattern(word: string, pattern: string)
    requires HasSuffix(pattern, "*")
    ensures HasPrefix(word, TrimSuffix(pattern, "*")) <==> exists prefix, rest :: pattern == prefix + "*" && word == prefix + rest
  {
    var p := TrimSuffix(pattern, "*");
    assert pattern == p + "*";
    if HasPrefix(word, p) {
      assert word == p + word[|p|..];
    }
    forall prefix, rest | pattern == prefix + "*" && word == prefix + rest ensures HasPrefix(word, p) {
      assert prefix == pattern[..|pattern| - 1] == p;
    }
  }
}
