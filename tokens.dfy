/** The technique-identifier token of the scrapers, `\b(T\d{4}(?:\.\d{1,3})?)\b`
    (utils.py TTP_REGEX, repeated literally by cisa.contains_ttps), and the
    left-to-right scan that re.findall / re.finditer perform with it.
    `\d` and `\w` are taken in their ASCII sense. */
module TtpTokens {

  predicate IsDigit(c: char) {
    '0' <= c <= '9'
  }

  predicate AllDigits(s: string) {
    forall k :: 0 <= k < |s| ==> IsDigit(s[k])
  }

  /** A character of `\w`. */
  predicate IsWordChar(c: char) {
    ('a' <= c <= 'z') || ('A' <= c <= 'Z') || IsDigit(c) || c == '_'
  }

  /** The number of consecutive digits of `t` from position `i`. */
  function DigitRun(t: string, i: nat): (n: nat)
    requires i <= |t|
    ensures i + n <= |t|
    decreases |t| - i
  {
    if i < |t| && IsDigit(t[i]) then 1 + DigitRun(t, i + 1) else 0
  }

  /** The run holds digits only, and ends at a character that is none. */
  lemma {:induction false} DigitRunDigits(t: string, i: nat)
    requires i <= |t|
    ensures forall k :: i <= k < i + DigitRun(t, i) ==> IsDigit(t[k])
    ensures i + DigitRun(t, i) == |t| || !IsDigit(t[i + DigitRun(t, i)])
    decreases |t| - i
  {
    if i < |t| && IsDigit(t[i]) {
      DigitRunDigits(t, i + 1);
    }
  }

  /** `\b` just after a word character at position `j - 1`. */
  predicate EndBoundary(t: string, j: nat)
    requires j <= |t|
  {
    j == |t| || !IsWordChar(t[j])
  }

  /** The shape of a token: T, four digits, and optionally a dot and one to
      three digits. */
  predicate IsTidShape(s: string) {
    && (|s| == 5 || 7 <= |s| <= 9)
    && s[0] == 'T'
    && (forall k :: 1 <= k < 5 ==> IsDigit(s[k]))
    && (|s| > 5 ==> s[5] == '.' && forall k :: 6 <= k < |s| ==> IsDigit(s[k]))
  }

  /** The length of the match of the token pattern that starts at `i`, or 0 when
      none starts there. The optional sub-technique group is greedy; when the
      group cannot end on a word boundary the match falls back to `T####`. */
  function MatchAt(t: string, i: nat): (n: nat)
    requires i <= |t|
    ensures i + n <= |t|
    ensures n > 0 ==> IsTidShape(t[i..i + n])
    ensures n > 0 ==> i == 0 || !IsWordChar(t[i - 1])
    ensures n > 0 ==> EndBoundary(t, i + n)
  {
    if i + 5 > |t| || t[i] != 'T' || DigitRun(t, i + 1) < 4 || (i > 0 && IsWordChar(t[i - 1])) then 0
    else
      DigitRunDigits(t, i + 1);
      var j := i + 5;
      var sub := if j < |t| && t[j] == '.' then DigitRun(t, j + 1) else 0;
      if 1 <= sub <= 3 && EndBoundary(t, j + 1 + sub) then DigitRunDigits(t, j + 1); 6 + sub
      else if EndBoundary(t, j) then 5
      else 0
  }

  /** Some match of the token pattern starts in `t` at or after `from`. */
  predicate HasMatchFrom(t: string, from: nat) {
    exists i :: from <= i < |t| && MatchAt(t, i) > 0
  }

  /** `re.findall(TTP_REGEX, t[from..])`: the tokens, left to right, each scan
      resuming where the previous match ended. */
  function FindFrom(t: string, from: nat): (r: seq<string>)
    requires from <= |t|
    ensures forall k :: 0 <= k < |r| ==> IsTidShape(r[k])
    decreases |t| - from
  {
    if from == |t| then []
    else
      var n := MatchAt(t, from);
      if n > 0 then [t[from..from + n]] + FindFrom(t, from + n)
      else FindFrom(t, from + 1)
  }

  /** Every technique token of `t`, in order. */
  function FindTtps(t: string): (r: seq<string>)
    ensures forall k :: 0 <= k < |r| ==> IsTidShape(r[k])
  {
    FindFrom(t, 0)
  }

  /** The scan finds a token exactly when the pattern matches somewhere. */
  lemma {:induction false} FindFromNonEmptyIff(t: string, from: nat)
    requires from <= |t|
    ensures FindFrom(t, from) != [] <==> HasMatchFrom(t, from)
    decreases |t| - from
  {
    if from < |t| {
      if MatchAt(t, from) == 0 {
        FindFromNonEmptyIff(t, from + 1);
        if HasMatchFrom(t, from) {
          var i :| from <= i < |t| && MatchAt(t, i) > 0;
          assert i != from;
          assert HasMatchFrom(t, from + 1);
        }
      }
    }
  }

  /** `s` occurs in `t` at position `i`. */
  predicate OccursAt(t: string, i: nat, s: string) {
    i + |s| <= |t| && t[i..i + |s|] == s
  }

  /** Every token the scan returns occurs in the text. */
  lemma {:induction false} FindFromOccurs(t: string, from: nat, k: nat)
    requires from <= |t|
    requires k < |FindFrom(t, from)|
    ensures exists i :: from <= i && OccursAt(t, i, FindFrom(t, from)[k])
    decreases |t| - from
  {
    var n := MatchAt(t, from);
    if n > 0 {
      if k > 0 {
        FindFromOccurs(t, from + n, k - 1);
        assert FindFrom(t, from)[k] == FindFrom(t, from + n)[k - 1];
      } else {
        assert OccursAt(t, from, FindFrom(t, from)[0]);
      }
    } else {
      FindFromOccurs(t, from + 1, k);
    }
  }
}
