/** Text normalisation: trimming, the blank-to-null rule of the ORM converters,
    the EAM sanitiser, and decimal rendering of indices. */
module Text {
  import opened Common

  /** Python's `str.isspace`, which `str.strip()` and the regex class `\s` share. */
  predicate IsSpace(c: char) {
    var n := c as int;
    || 9 <= n <= 13 || 28 <= n <= 32 || n == 0x85 || n == 0xA0 || n == 0x1680
    || 0x2000 <= n <= 0x200A || n == 0x2028 || n == 0x2029 || n == 0x202F || n == 0x205F || n == 0x3000
  }

  /** The sanitiser's class: white space, NBSP, figure space, narrow NBSP,
      zero-width space, LRM, RLM and BOM. */
  predicate IsJunk(c: char) {
    var n := c as int;
    IsSpace(c) || n == 0xA0 || n == 0x2007 || n == 0x202F || n == 0x200B || n == 0x200E || n == 0x200F || n == 0xFEFF
  }

  function TrimLeft(drop: char -> bool, s: string): string {
    if s == [] then [] else if drop(s[0]) then TrimLeft(drop, s[1..]) else s
  }

  function TrimRight(drop: char -> bool, s: string): string {
    if s == [] then [] else if drop(s[|s| - 1]) then TrimRight(drop, s[..|s| - 1]) else s
  }

  function Trim(drop: char -> bool, s: string): string {
    TrimRight(drop, TrimLeft(drop, s))
  }

  function Strip(s: string): string {
    Trim(IsSpace, s)
  }

  /** `norm` and `_none_if_blank` on text: trimmed, or null when nothing is left. */
  function NoneIfBlank(v: Option<string>): Option<string> {
    if v.None? || Strip(v.value) == [] then None else Some(Strip(v.value))
  }

  /** The diff's canonical value: an empty string counts as null. */
  function Canon(v: Option<string>): Option<string> {
    if v == Some("") then None else v
  }

  /** `str(v)` of an optional id. */
  function IdText(v: Option<string>): string {
    if v.Some? then v.value else "None"
  }

  /** `sanitize_text` on text. */
  function Sanitize(v: Option<string>): Option<string> {
    if v.None? || Trim(IsJunk, v.value) == [] then None else Some(Trim(IsJunk, v.value))
  }

  /** Nothing to trim at either end. */
  ghost predicate Clean(drop: char -> bool, s: string) {
    s == [] || (!drop(s[0]) && !drop(s[|s| - 1]))
  }

  lemma {:induction false} TrimLeftMeaning(drop: char -> bool, s: string)
    ensures var t := TrimLeft(drop, s);
            && |t| <= |s| && t == s[|s| - |t|..] && (t == [] || !drop(t[0]))
            && forall k :: 0 <= k < |s| - |t| ==> drop(s[k])
  {
    if s != [] && drop(s[0]) {
      TrimLeftMeaning(drop, s[1..]);
      assert forall k :: 0 < k < |s| ==> s[k] == s[1..][k - 1];
    }
  }

  lemma {:induction false} TrimRightMeaning(drop: char -> bool, s: string)
    ensures var t := TrimRight(drop, s);
            && |t| <= |s| && t == s[..|t|] && (t == [] || !drop(t[|t| - 1]))
            && forall k :: |t| <= k < |s| ==> drop(s[k])
  {
    if s != [] && drop(s[|s| - 1]) {
      TrimRightMeaning(drop, s[..|s| - 1]);
    }
  }

  lemma TrimIsClean(drop: char -> bool, s: string)
    ensures Clean(drop, Trim(drop, s))
  {
    TrimLeftMeaning(drop, s);
    TrimRightMeaning(drop, TrimLeft(drop, s));
  }

  /** Trimming removes droppable characters from the two ends, and nothing else. */
  lemma TrimMeaning(drop: char -> bool, s: string) returns (i: nat, j: nat)
    ensures i <= j <= |s| && Trim(drop, s) == s[i..j] && Clean(drop, s[i..j])
    ensures forall k :: 0 <= k < i || j <= k < |s| ==> drop(s[k])
  {
    var t := TrimLeft(drop, s);
    TrimLeftMeaning(drop, s);
    TrimRightMeaning(drop, t);
    i := |s| - |t|;
    j := i + |Trim(drop, s)|;
    assert forall k :: 0 <= k < |t| ==> t[k] == s[i + k];
    assert forall k :: i <= k < |s| ==> s[k] == t[k - i];
    TrimIsClean(drop, s);
  }

  /** `t` is what remains of `s`: some droppable text around it is gone, and it starts and ends
      with characters to keep. */
  ghost predicate Core(drop: char -> bool, s: string, t: string) {
    exists i, j :: 0 <= i < j <= |s| && t == s[i..j] && !drop(s[i]) && !drop(s[j - 1])
                   && forall k :: 0 <= k < i || j <= k < |s| ==> drop(s[k])
  }

  /** What is left of an optional text: its core, or null when every character is droppable. */
  ghost predicate Remains(drop: char -> bool, v: Option<string>, t: Option<string>) {
    if v.None? || (forall c :: c in v.value ==> drop(c)) then t.None?
    else t.Some? && Core(drop, v.value, t.value)
  }

  lemma TrimLeavesCore(drop: char -> bool, s: string)
    ensures Trim(drop, s) == [] <==> forall c :: c in s ==> drop(c)
    ensures Trim(drop, s) != [] ==> Core(drop, s, Trim(drop, s))
  {
    var i, j := TrimMeaning(drop, s);
    if i == j {
      forall c | c in s ensures drop(c) {
        var k :| 0 <= k < |s| && s[k] == c;
        assert k < i || j <= k;
      }
    } else {
      assert s[i] in s && s[i..j][0] == s[i] && s[i..j][j - i - 1] == s[j - 1];
    }
  }

  /** Converted text keeps exactly what lies between its first and last visible character. */
  lemma NoneIfBlankMeaning(v: Option<string>)
    ensures Remains(IsSpace, v, NoneIfBlank(v))
  {
    if v.Some? { TrimLeavesCore(IsSpace, v.value); }
  }

  /** So does sanitised text, with the sanitiser's wider idea of what is not visible. */
  lemma SanitizeMeaning(v: Option<string>)
    ensures Remains(IsJunk, v, Sanitize(v))
  {
    if v.Some? { TrimLeavesCore(IsJunk, v.value); }
  }

  /** A text has one core. */
  lemma RemainsOnce(drop: char -> bool, v: Option<string>, t: Option<string>, u: Option<string>)
    requires Remains(drop, v, t) && Remains(drop, v, u)
    ensures t == u
  {
    if t.Some? {
      var s := v.value;
      var i, j :| 0 <= i < j <= |s| && t.value == s[i..j] && !drop(s[i]) && !drop(s[j - 1])
                  && forall k :: 0 <= k < i || j <= k < |s| ==> drop(s[k]);
      var m, n :| 0 <= m < n <= |s| && u.value == s[m..n] && !drop(s[m]) && !drop(s[n - 1])
                  && forall k :: 0 <= k < m || n <= k < |s| ==> drop(s[k]);
      assert i == m && j == n;
    }
  }

  /** Clean text is exactly the text that trimming leaves alone. */
  lemma CleanIffFixed(drop: char -> bool, s: string)
    ensures Clean(drop, s) <==> Trim(drop, s) == s
  {
    TrimIsClean(drop, s);
  }

  /** The sanitiser drops at least what stripping drops, so sanitised text is a
      fixed point of the sanitiser and of the ORM's blank-to-null rule. */
  lemma SanitizedIsFixed(v: Option<string>)
    ensures Sanitize(Sanitize(v)) == Sanitize(v)
    ensures NoneIfBlank(Sanitize(v)) == Sanitize(v)
  {
    if Sanitize(v).Some? {
      var t := Sanitize(v).value;
      TrimIsClean(IsJunk, v.value);
      CleanIffFixed(IsJunk, t);
      CleanIffFixed(IsSpace, t);
    }
  }

  lemma NoneIfBlankIsFixed(v: Option<string>)
    ensures NoneIfBlank(NoneIfBlank(v)) == NoneIfBlank(v)
    ensures NoneIfBlank(v) != Some("")
  {
    if NoneIfBlank(v).Some? {
      TrimIsClean(IsSpace, v.value);
      CleanIffFixed(IsSpace, NoneIfBlank(v).value);
    }
  }

  /** The converse fails: a stripped text may still carry a zero-width space, which
      the sanitiser removes. */
  lemma StrippedNeedNotBeSanitized()
    ensures NoneIfBlank(Some("x\U{200B}")) == Some("x\U{200B}")
    ensures Sanitize(Some("x\U{200B}")) == Some("x")
  {
    var s := "x\U{200B}";
    CleanIffFixed(IsSpace, s);
    assert TrimLeft(IsJunk, s) == s;
    assert s[..1] == "x";
    assert TrimRight(IsJunk, "x") == "x";
  }

  lemma CanonOfNormal(v: Option<string>)
    requires NoneIfBlank(v) == v
    ensures Canon(v) == v
  {
    NoneIfBlankIsFixed(v);
  }

  // ---- str(n) for integers -----------------------------------------------------

  function Digit(n: nat): char
    requires n < 10
  {
    "0123456789"[n]
  }

  function NatText(n: nat): string
    decreases n, 1
  {
    Leading(n) + [Digit(n % 10)]
  }

  /** All digits but the last. */
  function Leading(n: nat): string
    decreases n, 0
  {
    if n < 10 then [] else NatText(n / 10)
  }

  function IntText(n: int): string {
    if n < 0 then "-" + NatText(-n) else NatText(n)
  }

  lemma {:induction false} NatTextInjective(a: nat, b: nat)
    requires NatText(a) == NatText(b)
    ensures a == b
    decreases a
  {
    SplitLast(Leading(a), Digit(a % 10), Leading(b), Digit(b % 10));
    DigitInjective(a % 10, b % 10);
    NatTextStarts(a / 10);
    NatTextStarts(b / 10);
    if a >= 10 {
      NatTextInjective(a / 10, b / 10);
    }
  }

  lemma DigitInjective(m: nat, n: nat)
    requires m < 10 && n < 10 && Digit(m) == Digit(n)
    ensures m == n
  {
  }

  lemma SplitLast(x: string, c: char, y: string, d: char)
    requires x + [c] == y + [d]
    ensures x == y && c == d
  {
    assert (x + [c])[..|x|] == x && (y + [d])[..|y|] == y;
    assert (x + [c])[|x|] == c && (y + [d])[|y|] == d;
  }

  lemma {:induction false} NatTextStarts(a: nat)
    ensures NatText(a) != [] && NatText(a)[0] != '-'
  {
    if a >= 10 {
      NatTextStarts(a / 10);
    }
  }

  /** Decimal rendering never maps two indices to one label value. */
  lemma IntTextInjective(a: int, b: int)
    ensures IntText(a) == IntText(b) ==> a == b
  {
    var m, n := if a < 0 then -a else a, if b < 0 then -b else b;
    NatTextStarts(m);
    NatTextStarts(n);
    if a < 0 && b < 0 {
      assert IntText(a)[1..] == NatText(m) && IntText(b)[1..] == NatText(n);
    }
    if NatText(m) == NatText(n) { NatTextInjective(m, n); }
  }

  // ---- Reading a rendered integer back -----------------------------------------------

  /** The number a text of decimal digits denotes. */
  function Denoted(s: string): int {
    if s == [] then 0 else 10 * Denoted(s[..|s| - 1]) + (s[|s| - 1] as int - '0' as int)
  }

  lemma DigitDenotes(n: nat)
    requires n < 10
    ensures Digit(n) as int - '0' as int == n
  {
  }

  lemma {:induction false} NatTextDenotes(n: nat)
    ensures Denoted(NatText(n)) == n
  {
    DigitDenotes(n % 10);
    assert NatText(n)[..|NatText(n)| - 1] == Leading(n);
    if n >= 10 {
      NatTextDenotes(n / 10);
    }
  }

  /** A rendered integer reads back: the digits after an optional minus sign denote it. */
  lemma IntTextReadsBack(n: int)
    ensures var s := IntText(n);
            if n < 0 then s != [] && s[0] == '-' && Denoted(s[1..]) == -n else Denoted(s) == n
  {
    NatTextDenotes(if n < 0 then -n else n);
    if n < 0 { assert IntText(n)[1..] == NatText(-n); }
  }
}
