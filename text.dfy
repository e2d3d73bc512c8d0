/**
 * The handful of JavaScript string and number built-ins the weather widget
 * relies on: `toLowerCase`, `includes`, `endsWith`, `Math.round` and the
 * rendering of an integer inside a template literal.
 */
module Text {

  /** `String.prototype.toLowerCase` on one character, restricted to ASCII letters. */
  function LowerChar(ch: char): char
  {
    if 'A' <= ch <= 'Z' then (ch as int + 32) as char else ch
  }

  /** `String.prototype.toLowerCase`: every ASCII upper-case letter is mapped to lower case. */
  function ToLower(s: string): (r: string)
    ensures |r| == |s|
    ensures forall i :: 0 <= i < |s| ==> r[i] == LowerChar(s[i])
    ensures forall i :: 0 <= i < |r| ==> !('A' <= r[i] <= 'Z')
  {
    if s == [] then [] else [LowerChar(s[0])] + ToLower(s[1..])
  }

  /** `p` occurs in `s` starting at position `i`. */
  predicate OccursAt(s: string, p: string, i: nat)
  {
    i + |p| <= |s| && s[i..i + |p|] == p
  }

  /** `String.prototype.includes`: scan `s` from the left for an occurrence of `p`. The scan
      finds `p` exactly when `p` occurs somewhere in `s`. */
  function Includes(s: string, p: string): (b: bool)
    ensures b <==> exists i: nat :: OccursAt(s, p, i)
    decreases |s|
  {
    if |s| < |p| then false
    else if s[..|p|] == p then (assert OccursAt(s, p, 0); true)
    else (OccursShift(s, p); Includes(s[1..], p))
  }

  /** When `p` is not a prefix of `s`, its occurrences in `s` are those in `s[1..]`, moved by one. */
  lemma OccursShift(s: string, p: string)
    requires |p| <= |s| && s[..|p|] != p
    ensures (exists i: nat :: OccursAt(s[1..], p, i)) <==> (exists i: nat :: OccursAt(s, p, i))
  {
    if i: nat :| OccursAt(s[1..], p, i) {
      assert s[i + 1..i + 1 + |p|] == s[1..][i..i + |p|];
      assert OccursAt(s, p, i + 1);
    }
    if i: nat :| OccursAt(s, p, i) {
      assert i > 0;
      assert s[1..][i - 1..i - 1 + |p|] == s[i..i + |p|];
      assert OccursAt(s[1..], p, i - 1);
    }
  }

  /** An occurrence found at a known position makes `Includes` true. */
  lemma IncludesAt(s: string, p: string, i: nat)
    requires OccursAt(s, p, i)
    ensures Includes(s, p)
  {
  }

  /** `p` occurs at `i` in `s` when letter case is ignored. */
  predicate OccursAtIgnoringCase(s: string, p: string, i: nat)
  {
    i + |p| <= |s| && forall k :: 0 <= k < |p| ==> LowerChar(s[i + k]) == LowerChar(p[k])
  }

  /** Case-insensitive matching: after lower-casing both sides, `includes` finds `p` exactly
      when `p` occurs in `s` up to the case of its letters ("Rain" and "RAIN" for "rain"). */
  lemma IncludesToLower(s: string, p: string)
    ensures Includes(ToLower(s), ToLower(p)) <==> exists i: nat :: OccursAtIgnoringCase(s, p, i)
  {
    var ls, lp := ToLower(s), ToLower(p);
    if i: nat :| OccursAtIgnoringCase(s, p, i) {
      assert ls[i..i + |p|] == lp by {
        forall k | 0 <= k < |p| ensures ls[i..i + |p|][k] == lp[k] {}
      }
      assert OccursAt(ls, lp, i);
    }
    if i: nat :| OccursAt(ls, lp, i) {
      forall k | 0 <= k < |p| ensures LowerChar(s[i + k]) == LowerChar(p[k]) {
        assert ls[i..i + |p|][k] == ls[i + k];
      }
      assert OccursAtIgnoringCase(s, p, i);
    }
  }

  /** An occurrence inside `s` is still one, further along, inside `a + s + b`. */
  lemma OccursInside(a: string, s: string, b: string, p: string, i: nat)
    requires OccursAt(s, p, i)
    ensures OccursAt(a + s + b, p, |a| + i)
  {
    assert (a + s + b)[|a| + i..|a| + i + |p|] == s[i..i + |p|];
  }

  /** A suffix `p` of `s` followed by a prefix `q` of `t` is an occurrence of `p + q` in `s + t`. */
  lemma OccursAcross(s: string, t: string, p: string, q: string)
    requires EndsWith(s, p) && OccursAt(t, q, 0)
    ensures OccursAt(s + t, p + q, |s| - |p|)
  {
    var i := |s| - |p|;
    assert (s + t)[i..i + |p| + |q|] == s[i..] + t[..|q|];
  }

  /** A string without ASCII upper-case letters is its own lower-case form. */
  lemma ToLowerUnchanged(s: string)
    requires forall i :: 0 <= i < |s| ==> !('A' <= s[i] <= 'Z')
    ensures ToLower(s) == s
  {
  }

  /** A string lacking one of the characters of `p` cannot contain `p`. */
  lemma ExcludesByChar(s: string, p: string, k: nat)
    requires k < |p| && p[k] !in s
    ensures !Includes(s, p)
  {
  }

  /** `String.prototype.endsWith`. */
  predicate EndsWith(s: string, suffix: string)
  {
    |suffix| <= |s| && s[|s| - |suffix|..] == suffix
  }

  /** `s` ends with `suffix` exactly when `s` is some string followed by `suffix`. */
  lemma EndsWithSpec(s: string, suffix: string)
    ensures EndsWith(s, suffix) <==> exists t :: s == t + suffix
  {
    if EndsWith(s, suffix) { assert s == s[..|s| - |suffix|] + suffix; }
    if t :| s == t + suffix { assert s[|s| - |suffix|..] == suffix; }
  }

  /** `Math.round`: the nearest integer, halves rounded towards positive infinity. */
  function Round(x: real): (r: int)
    ensures x - 0.5 < r as real <= x + 0.5
  {
    (x + 0.5).Floor
  }

  function DigitChar(d: nat): (ch: char)
    requires d < 10
    ensures '0' <= ch <= '9'
  {
    "0123456789"[d]
  }

  function DigitValue(ch: char): (d: nat)
    requires '0' <= ch <= '9'
    ensures d < 10
  {
    ch as int - '0' as int
  }

  predicate AllDigits(s: string)
  {
    forall i :: 0 <= i < |s| ==> '0' <= s[i] <= '9'
  }

  /** Decimal rendering of a natural number, most significant digit first, no leading zeros. */
  function NatToString(n: nat): (s: string)
    ensures |s| > 0 && AllDigits(s)
    ensures |s| > 1 ==> s[0] != '0'
    decreases n
  {
    if n < 10 then [DigitChar(n)] else NatToString(n / 10) + [DigitChar(n % 10)]
  }

  /** Reads a string of decimal digits back into the number it denotes. */
  function ParseNat(s: string): nat
    requires AllDigits(s)
  {
    if s == [] then 0 else 10 * ParseNat(s[..|s| - 1]) + DigitValue(s[|s| - 1])
  }

  lemma {:induction false} ParseNatToString(n: nat)
    ensures ParseNat(NatToString(n)) == n
    decreases n
  {
    var s := NatToString(n);
    if n < 10 {
      assert s == [DigitChar(n)];
      assert s[..0] == [];
    } else {
      ParseNatToString(n / 10);
      assert s[..|s| - 1] == NatToString(n / 10);
    }
  }

  /** `${n}` for an integral number: an optional minus sign followed by the decimal digits. */
  function IntToString(n: int): (s: string)
    ensures |s| > 0
    ensures s[0] == '-' <==> n < 0
    ensures |Magnitude(s)| > 0 && AllDigits(Magnitude(s))
    ensures |Magnitude(s)| > 1 ==> Magnitude(s)[0] != '0'
  {
    if n < 0 then "-" + NatToString(-n) else NatToString(n)
  }

  /** The digits of a rendered integer, after its sign if it has one. */
  function Magnitude(s: string): string
    requires |s| > 0
  {
    if s[0] == '-' then s[1..] else s
  }

  function ParseInt(s: string): int
    requires |s| > 0 && AllDigits(Magnitude(s))
  {
    var m: int := ParseNat(Magnitude(s));
    if s[0] == '-' then -m else m
  }

  /** The rendering loses nothing: the rendered number reads back as itself. */
  lemma ParseIntToString(n: int)
    ensures AllDigits(Magnitude(IntToString(n))) && ParseInt(IntToString(n)) == n
  {
    var s := IntToString(n);
    if n < 0 {
      assert s[1..] == NatToString(-n);
      ParseNatToString(-n);
    } else {
      ParseNatToString(n);
    }
  }
}
