/** Text helpers shared by every pass: the `strip().lower()` normaliser
    (`_norm_lower`, `_lname`, `lname` in the scripts), prefix and substring tests. */
module Text {

  /** The characters Python's `str.strip()` removes (those for which `str.isspace()` holds). */
  predicate IsSpace(c: char) {
    || c == ' ' || c == '\t' || c == '\n' || c == '\r'
    || c == '\U{B}' || c == '\U{C}'
    || ('\U{1C}' <= c <= '\U{1F}')
    || c == '\U{85}' || c == '\U{A0}' || c == '\U{1680}'
    || ('\U{2000}' <= c <= '\U{200A}')
    || c == '\U{2028}' || c == '\U{2029}' || c == '\U{202F}' || c == '\U{205F}' || c == '\U{3000}'
  }

  predicate IsUpper(c: char) {
    'A' <= c <= 'Z'
  }

  /** Lower-cases one character; only ASCII letters are folded in this model. */
  function LowerChar(c: char): (r: char)
    ensures !IsUpper(r)
    ensures IsSpace(r) <==> IsSpace(c)
    ensures !IsUpper(c) ==> r == c
  {
    if IsUpper(c) then (c as int + 32) as char else c
  }

  function Lower(s: string): (r: string)
    ensures |r| == |s|
    ensures forall i | 0 <= i < |s| :: r[i] == LowerChar(s[i])
  {
    seq(|s|, i requires 0 <= i < |s| => LowerChar(s[i]))
  }

  function StripLeft(s: string): (r: string)
    ensures |r| <= |s| && r == s[|s| - |r|..]
    ensures |r| > 0 ==> !IsSpace(r[0])
  {
    if |s| > 0 && IsSpace(s[0]) then StripLeft(s[1..]) else s
  }

  function StripRight(s: string): (r: string)
    ensures |r| <= |s| && r == s[..|r|]
    ensures |r| > 0 ==> !IsSpace(r[|r| - 1])
  {
    if |s| > 0 && IsSpace(s[|s| - 1]) then StripRight(s[..|s| - 1]) else s
  }

  /** Python's `s.strip()`. */
  function Strip(s: string): string {
    StripRight(StripLeft(s))
  }

  /** `(x or "").strip().lower()`: the normaliser every script applies to labels and predicates. */
  function NormLower(s: string): string {
    Lower(Strip(s))
  }

  /** A string that the normaliser leaves as it is: no upper-case letter, no space at either end. */
  predicate Normal(s: string) {
    && (forall c | c in s :: !IsUpper(c))
    && (|s| > 0 ==> !IsSpace(s[0]) && !IsSpace(s[|s| - 1]))
  }

  lemma {:induction false} StripLeftFixed(s: string)
    requires |s| == 0 || !IsSpace(s[0])
    ensures StripLeft(s) == s
  {
  }

  lemma {:induction false} StripRightFixed(s: string)
    requires |s| == 0 || !IsSpace(s[|s| - 1])
    ensures StripRight(s) == s
  {
  }

  /** The ends of a stripped string are not spaces, and lowering keeps it that way. */
  lemma {:induction false} StripEnds(s: string)
    ensures var t := Strip(s); |t| == 0 || (!IsSpace(t[0]) && !IsSpace(t[|t| - 1]))
  {
    var l := StripLeft(s);
    var t := StripRight(l);
    if |t| > 0 {
      assert t[0] == l[0];
    }
  }

  /** Whatever the normaliser returns is normal. */
  lemma NormLowerIsNormal(s: string)
    ensures Normal(NormLower(s))
  {
    var t := Strip(s);
    var r := Lower(t);
    StripEnds(s);
    if |r| > 0 {
      assert r[0] == LowerChar(t[0]);
      assert r[|r| - 1] == LowerChar(t[|t| - 1]);
    }
    forall c | c in r ensures !IsUpper(c) {
      var i :| 0 <= i < |r| && r[i] == c;
      assert r[i] == LowerChar(t[i]);
    }
  }

  /** A normal string is a fixed point of the normaliser. */
  lemma NormalIsFixed(s: string)
    requires Normal(s)
    ensures NormLower(s) == s
  {
    StripLeftFixed(s);
    StripRightFixed(s);
    assert Strip(s) == s;
    forall i | 0 <= i < |s| ensures Lower(s)[i] == s[i] {
      assert s[i] in s;
    }
  }

  /** Normalising twice is normalising once. */
  lemma NormLowerIdempotent(s: string)
    ensures NormLower(NormLower(s)) == NormLower(s)
  {
    NormLowerIsNormal(s);
    NormalIsFixed(NormLower(s));
  }

  /** `s.startswith(t)`. */
  predicate StartsWith(s: string, t: string) {
    t <= s
  }

  /** `re.search(t, s)` for a pattern `t` without special characters: `t` occurs in `s`. */
  predicate Contains(s: string, t: string) {
    exists i | 0 <= i <= |s| :: t <= s[i..]
  }
}
