/** The fragment of `java.util.regex` that `Pedido.REGEX_CPF` uses: the
    class `\d`, literal characters and the `?` quantifier, matched against
    a whole string as `String.matches` does. A bounded repetition `\d{n}`
    is written as n digit terms. */
module Regex {

  /** `\d` without the UNICODE_CHARACTER_CLASS flag: an ASCII digit. */
  predicate IsDigit(c: char) {
    '0' <= c <= '9'
  }

  datatype Atom = Digit | Literal(c: char)

  /** An atom, followed by `?` when `optional` holds. */
  datatype Term = Term(atom: Atom, optional: bool)

  type Pattern = seq<Term>

  predicate AtomMatches(a: Atom, c: char) {
    match a
    case Digit => IsDigit(c)
    case Literal(l) => c == l
  }

  /** `\d{n}` */
  function Digits(n: nat): (p: Pattern)
    ensures |p| == n
    ensures forall k :: 0 <= k < n ==> p[k] == Term(Digit, false)
  {
    if n == 0 then [] else [Term(Digit, false)] + Digits(n - 1)
  }

  /** `s` matches `p` from its first to its last character. A term marked
      `?` may consume one character or none; both choices are explored, as
      a backtracking regex engine does. The surrounding `^` and `$` of a
      pattern are implied by matching the whole string. */
  predicate FullMatch(p: Pattern, s: string)
    decreases |p|
  {
    if p == [] then s == []
    else
      (s != [] && AtomMatches(p[0].atom, s[0]) && FullMatch(p[1..], s[1..]))
      || (p[0].optional && FullMatch(p[1..], s))
  }

  /** Number of ASCII digits in `s`. */
  function CountDigits(s: string): nat {
    if s == [] then 0 else (if IsDigit(s[0]) then 1 else 0) + CountDigits(s[1..])
  }

  /** Number of `\d` terms in `p`. */
  function DigitTerms(p: Pattern): nat {
    if p == [] then 0 else (if p[0].atom == Digit then 1 else 0) + DigitTerms(p[1..])
  }

  /** Number of terms of `p` that must consume a character. */
  function MinLength(p: Pattern): nat {
    if p == [] then 0 else (if p[0].optional then 0 else 1) + MinLength(p[1..])
  }

  /** Every `\d` is mandatory and every literal is something other than a
      digit, so that the digits of a matching string are exactly the ones
      the `\d` terms consumed. */
  predicate DigitsMandatory(p: Pattern) {
    forall k :: 0 <= k < |p| ==>
      (p[k].atom == Digit ==> !p[k].optional) &&
      (p[k].atom.Literal? ==> !IsDigit(p[k].atom.c))
  }

  lemma {:induction false} DigitTermsAppend(p: Pattern, q: Pattern)
    ensures DigitTerms(p + q) == DigitTerms(p) + DigitTerms(q)
    decreases |p|
  {
    if p == [] {
      assert p + q == q;
    } else {
      assert (p + q)[1..] == p[1..] + q;
      DigitTermsAppend(p[1..], q);
    }
  }

  lemma {:induction false} MinLengthAppend(p: Pattern, q: Pattern)
    ensures MinLength(p + q) == MinLength(p) + MinLength(q)
    decreases |p|
  {
    if p == [] {
      assert p + q == q;
    } else {
      assert (p + q)[1..] == p[1..] + q;
      MinLengthAppend(p[1..], q);
    }
  }

  lemma {:induction false} DigitsCounts(n: nat)
    ensures DigitTerms(Digits(n)) == n && MinLength(Digits(n)) == n
  {
    if n > 0 {
      assert Digits(n)[1..] == Digits(n - 1);
      DigitsCounts(n - 1);
    }
  }

  /** A matching string is at least as long as the mandatory terms and at
      most as long as the pattern. */
  lemma {:induction false} LengthBounds(p: Pattern, s: string)
    requires FullMatch(p, s)
    ensures MinLength(p) <= |s| <= |p|
    decreases |p|
  {
    if p != [] {
      if s != [] && AtomMatches(p[0].atom, s[0]) && FullMatch(p[1..], s[1..]) {
        LengthBounds(p[1..], s[1..]);
      } else {
        LengthBounds(p[1..], s);
      }
    }
  }

  /** When every `\d` is mandatory and no literal is a digit, a matching
      string holds exactly as many digits as the pattern has `\d` terms. */
  lemma {:induction false} DigitCount(p: Pattern, s: string)
    requires DigitsMandatory(p) && FullMatch(p, s)
    ensures CountDigits(s) == DigitTerms(p)
    decreases |p|
  {
    if p != [] {
      assert DigitsMandatory(p[1..]) by {
        forall k | 0 <= k < |p[1..]| ensures p[1..][k] == p[k + 1] { }
      }
      if s != [] && AtomMatches(p[0].atom, s[0]) && FullMatch(p[1..], s[1..]) {
        DigitCount(p[1..], s[1..]);
      } else {
        assert p[0].optional && p[0].atom.Literal?;
        DigitCount(p[1..], s);
      }
    }
  }

  /** Every character of a matching string was consumed by some term `j`
      whose atom accepts it: the digits before it are those of the terms
      before `j`, and the rest of the string matches the rest of the
      pattern. */
  lemma {:induction false} ConsumedBy(p: Pattern, s: string, i: nat)
    requires DigitsMandatory(p) && FullMatch(p, s) && i < |s|
    ensures exists j :: 0 <= j < |p| && AtomMatches(p[j].atom, s[i])
                       && CountDigits(s[..i]) == DigitTerms(p[..j])
                       && FullMatch(p[j + 1..], s[i + 1..])
    decreases |p|
  {
    assert p != [];
    assert DigitsMandatory(p[1..]) by {
      forall k | 0 <= k < |p[1..]| ensures p[1..][k] == p[k + 1] { }
    }
    if s != [] && AtomMatches(p[0].atom, s[0]) && FullMatch(p[1..], s[1..]) {
      if i == 0 {
        assert s[..0] == [] && p[..0] == [];
        assert p[1..] == p[0 + 1..];
      } else {
        ConsumedBy(p[1..], s[1..], i - 1);
        var j' :| 0 <= j' < |p[1..]| && AtomMatches(p[1..][j'].atom, s[1..][i - 1])
                  && CountDigits(s[1..][..i - 1]) == DigitTerms(p[1..][..j'])
                  && FullMatch(p[1..][j' + 1..], s[1..][i - 1 + 1..]);
        var j := j' + 1;
        assert s[..i][1..] == s[1..][..i - 1];
        assert p[..j][1..] == p[1..][..j'];
        assert p[1..][j' + 1..] == p[j + 1..];
        assert s[1..][i - 1 + 1..] == s[i + 1..];
        assert IsDigit(s[0]) <==> p[0].atom == Digit;
        assert AtomMatches(p[j].atom, s[i]) && CountDigits(s[..i]) == DigitTerms(p[..j]);
      }
    } else {
      assert p[0].optional && p[0].atom.Literal?;
      ConsumedBy(p[1..], s, i);
      var j' :| 0 <= j' < |p[1..]| && AtomMatches(p[1..][j'].atom, s[i])
                && CountDigits(s[..i]) == DigitTerms(p[1..][..j'])
                && FullMatch(p[1..][j' + 1..], s[i + 1..]);
      var j := j' + 1;
      assert p[..j][1..] == p[1..][..j'];
      assert p[1..][j' + 1..] == p[j + 1..];
      assert DigitTerms(p[..j]) == DigitTerms(p[1..][..j']);
    }
  }

  /** Matching is compositional: a match of `p` followed by a match of `q`
      is a match of `p + q`. */
  lemma {:induction false} MatchConcat(p: Pattern, s: string, q: Pattern, t: string)
    requires FullMatch(p, s) && FullMatch(q, t)
    ensures FullMatch(p + q, s + t)
    decreases |p|
  {
    if p == [] {
      assert p + q == q && s + t == t;
    } else {
      assert (p + q)[0] == p[0] && (p + q)[1..] == p[1..] + q;
      if s != [] && AtomMatches(p[0].atom, s[0]) && FullMatch(p[1..], s[1..]) {
        MatchConcat(p[1..], s[1..], q, t);
        assert (s + t)[0] == s[0] && (s + t)[1..] == s[1..] + t;
      } else {
        MatchConcat(p[1..], s, q, t);
      }
    }
  }

  /** `\d{n}` matches every string of n ASCII digits. */
  lemma {:induction false} DigitsMatch(n: nat, t: string)
    requires |t| == n && forall k :: 0 <= k < n ==> IsDigit(t[k])
    ensures FullMatch(Digits(n), t)
  {
    if n > 0 {
      assert Digits(n)[1..] == Digits(n - 1);
      DigitsMatch(n - 1, t[1..]);
    }
  }

  /** `c?` matches the empty string and the string `c`. */
  lemma OptionalMatch(c: char, present: bool)
    ensures FullMatch([Term(Literal(c), true)], if present then [c] else [])
  {
    var p := [Term(Literal(c), true)];
    assert p[1..] == [];
    if present {
      assert [c][1..] == [];
    }
  }
}
