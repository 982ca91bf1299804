/**
 * components/authComponents/PasswordMeter.tsx: the advisory strength label shown under a new
 * password. Lengths are JavaScript lengths, counted in UTF-16 code units.
 */
module PasswordMeter {
  import opened JsText

  datatype Strength = Strength(text: string, color: string)  // `label` in the source; a keyword here

  const Weak := Strength("Débil", "#ef4444")
  const Strong := Strength("Fuerte", "#22c55e")
  const Medium := Strength("Media", "#f59e42")

  predicate IsUpper(c: char) { 'A' <= c <= 'Z' }
  predicate IsDigit(c: char) { '0' <= c <= '9' }
  predicate IsSymbol(c: char) { c in "!@#$%^&*" }

  /** `(?=.*[X])` at the start of the input: an X is reached without crossing a line terminator. */
  predicate Lookahead(p: string, x: char -> bool) {
    exists k :: 0 <= k < |p| && x(p[k]) && forall m :: 0 <= m < k ==> !IsLineTerminator(p[m])
  }

  /** `^(?=.*[A-Z])(?=.*[0-9])(?=.*[!@#$%^&*]).{8,}$` read as its parts. */
  predicate StrongRegexTest(p: string) {
    && Lookahead(p, IsUpper)
    && Lookahead(p, IsDigit)
    && Lookahead(p, IsSymbol)
    && (forall k :: 0 <= k < |p| ==> !IsLineTerminator(p[k]))
    && Utf16Length(p) >= 8
  }

  /** What makes a password strong, stated without the regular expression. */
  ghost predicate IsStrong(p: string) {
    && Utf16Length(p) >= 8
    && (forall k :: 0 <= k < |p| ==> !IsLineTerminator(p[k]))
    && (exists k :: 0 <= k < |p| && IsUpper(p[k]))
    && (exists k :: 0 <= k < |p| && IsDigit(p[k]))
    && (exists k :: 0 <= k < |p| && IsSymbol(p[k]))
  }

  /** The regular expression accepts exactly the strong passwords. */
  lemma StrongRegexTestIff(p: string)
    ensures StrongRegexTest(p) <==> IsStrong(p)
  {
    if IsStrong(p) {
      var u :| 0 <= u < |p| && IsUpper(p[u]);
      var d :| 0 <= d < |p| && IsDigit(p[d]);
      var s :| 0 <= s < |p| && IsSymbol(p[s]);
      assert Lookahead(p, IsUpper) by { assert IsUpper(p[u]); }
      assert Lookahead(p, IsDigit) by { assert IsDigit(p[d]); }
      assert Lookahead(p, IsSymbol) by { assert IsSymbol(p[s]); }
    }
  }

  /**
   * getPasswordStrength: "Débil" below six code units, "Fuerte" when strong, "Media" otherwise; the
   * last `return` of the source is never reached.
   */
  function GetPasswordStrength(password: string): (r: Strength)
    ensures r == Weak <==> Utf16Length(password) < 6
    ensures r == Strong <==> IsStrong(password)
    ensures r == Medium <==> 6 <= Utf16Length(password) && !IsStrong(password)
  {
    StrongRegexTestIff(password);
    if password == "" || Utf16Length(password) < 6 then Weak
    else if StrongRegexTest(password) then Strong
    else if Utf16Length(password) >= 6 then Medium
    else Weak
  }

  /** Every password gets one of the three labels, each always with its own colour. */
  lemma StrengthLabels(password: string)
    ensures GetPasswordStrength(password) in {Weak, Strong, Medium}
    ensures GetPasswordStrength(password).text == "Débil" ==> GetPasswordStrength(password).color == "#ef4444"
    ensures GetPasswordStrength(password).text == "Fuerte" ==> GetPasswordStrength(password).color == "#22c55e"
    ensures GetPasswordStrength(password).text == "Media" ==> GetPasswordStrength(password).color == "#f59e42"
  {
  }

  /** Six or seven code units are never enough for "Fuerte": such a password is "Media". */
  lemma ShortPasswordsAreMedium(password: string)
    requires 6 <= Utf16Length(password) < 8
    ensures GetPasswordStrength(password) == Medium
  {
  }
}
