/** The fragment of JavaScript regular expressions that the classifiers use,
    and `RegExp.prototype.test` on a regular expression without the `g` flag
    (so every test is independent of the ones before it). */
module RegExp {
  import opened JsText

  /** One element of a pattern. */
  datatype Piece =
    | Lit(s: string)            // a run of literal characters
    | Class(cs: string)         // one character out of cs, as in [oa]
    | Alt(alts: seq<string>)    // a group of literal alternatives, as in (soya|girasol)
    | Opt(alts: seq<string>)    // an optional group, as in s?, (ed)? or (a|ato)?
    | Spaces                    // \s*
    | AnyRun                    // .*
    | Boundary                  // \b

  type Pattern = seq<Piece>

  /** A regular expression is a list of top-level alternatives `a|b|c`; a
      group of alternatives between two `\b` is written as one alternative
      per member, each between its own `\b`, which matches the same texts. */
  type Regex = seq<Pattern>

  /** `\b` at position i: exactly one of the characters around it is a word character. */
  predicate AtBoundary(t: string, i: nat)
    requires i <= |t|
  {
    (i > 0 && IsWordChar(t[i - 1])) != (i < |t| && IsWordChar(t[i]))
  }

  /** Some alternative w of alts starts at i and the rest of the pattern matches after it. */
  predicate AltFrom(alts: seq<string>, rest: Pattern, t: string, i: nat)
    requires i <= |t|
    decreases |rest|, |t| - i + 1
  {
    exists j :: 0 <= j < |alts| && alts[j] <= t[i..] && MatchFrom(rest, t, i + |alts[j]|)
  }

  /** The pattern p matches some text starting at position i of t
      (with backtracking: for the starred pieces every length is tried). */
  predicate MatchFrom(p: Pattern, t: string, i: nat)
    requires i <= |t|
    decreases |p|, |t| - i
  {
    if p == [] then true
    else match p[0]
      case Lit(s) => s <= t[i..] && MatchFrom(p[1..], t, i + |s|)
      case Class(cs) => i < |t| && t[i] in cs && MatchFrom(p[1..], t, i + 1)
      case Alt(alts) => AltFrom(alts, p[1..], t, i)
      case Opt(alts) => MatchFrom(p[1..], t, i) || AltFrom(alts, p[1..], t, i)
      case Spaces => MatchFrom(p[1..], t, i) || (i < |t| && IsWhiteSpace(t[i]) && MatchFrom(p, t, i + 1))
      case AnyRun => MatchFrom(p[1..], t, i) || (i < |t| && !IsLineTerminator(t[i]) && MatchFrom(p, t, i + 1))
      case Boundary => AtBoundary(t, i) && MatchFrom(p[1..], t, i)
  }

  /** `rx.test(t)`: some alternative matches starting somewhere in t. */
  predicate Test(r: Regex, t: string) {
    exists k, i :: 0 <= k < |r| && 0 <= i <= |t| && MatchFrom(r[k], t, i)
  }

  /** `rs.some(r => r.test(t))`. */
  predicate TestAny(rs: seq<Regex>, t: string) {
    exists k :: 0 <= k < |rs| && Test(rs[k], t)
  }

  /** The literal characters a pattern must start with: its first piece, or
      the one after a leading `\b`, when that is a literal. */
  function Head(p: Pattern): string {
    if |p| > 0 && p[0].Lit? then p[0].s
    else if |p| > 1 && p[0] == Boundary && p[1].Lit? then p[1].s
    else ""
  }

  /** A match starting at i begins with the pattern's head. */
  lemma HeadAt(p: Pattern, t: string, i: nat)
    requires i <= |t|
    ensures MatchFrom(p, t, i) ==> i + |Head(p)| <= |t| && forall j :: 0 <= j < |Head(p)| ==> t[i + j] == Head(p)[j]
    ensures MatchFrom(p, t, i) && |Head(p)| >= 1 ==> t[i] == Head(p)[0]
    ensures MatchFrom(p, t, i) && |Head(p)| >= 2 ==> t[i + 1] == Head(p)[1]
    ensures MatchFrom(p, t, i) && |Head(p)| >= 3 ==> t[i + 2] == Head(p)[2]
  {
    var s := Head(p);
    if MatchFrom(p, t, i) && s != [] {
      if p[0] == Boundary {
        assert MatchFrom(p[1..], t, i);
      }
      assert s <= t[i..];
      forall j | 0 <= j < |s| ensures t[i + j] == s[j] {
        assert t[i..][j] == s[j];
      }
    }
  }

  /** A pattern whose first two literal characters never stand side by side
      early enough in t for the whole head to fit matches nowhere in t. */
  lemma RefuteByPair(p: Pattern, t: string)
    requires |Head(p)| >= 2
    requires forall i :: 0 <= i && i + |Head(p)| <= |t| ==> !(t[i] == Head(p)[0] && t[i + 1] == Head(p)[1])
    ensures forall i :: 0 <= i <= |t| ==> !MatchFrom(p, t, i)
  {
    forall i | 0 <= i <= |t| ensures !MatchFrom(p, t, i) {
      HeadAt(p, t, i);
    }
  }

  /** A regular expression none of whose alternatives has a head that could
      fit in t with its first two characters side by side never matches t. */
  lemma RefuteRegexByPair(r: Regex, t: string)
    requires forall k :: 0 <= k < |r| ==> |Head(r[k])| >= 2
    requires forall k, i :: 0 <= k < |r| && 0 <= i && i + |Head(r[k])| <= |t| ==>
      !(t[i] == Head(r[k])[0] && t[i + 1] == Head(r[k])[1])
    ensures !Test(r, t)
  {
    forall k | 0 <= k < |r| ensures forall i :: 0 <= i <= |t| ==> !MatchFrom(r[k], t, i) {
      RefuteByPair(r[k], t);
    }
  }

  /** The first three characters of the pattern's head stand side by side at
      i, early enough in t for the whole head to fit. */
  predicate LeadAt(p: Pattern, t: string, i: int)
    requires |Head(p)| >= 3
  {
    0 <= i && i + |Head(p)| <= |t| && t[i] == Head(p)[0] && t[i + 1] == Head(p)[1] && t[i + 2] == Head(p)[2]
  }

  /** A regular expression none of whose alternatives' heads has its first
      three characters side by side, early enough for the head to fit, never
      matches t: the way to show that a detector stays silent on a given text. */
  lemma RefuteByLead(r: Regex, t: string)
    requires forall k :: 0 <= k < |r| ==> |Head(r[k])| >= 3
    requires forall k, i :: 0 <= k < |r| && 0 <= i <= |t| ==> !LeadAt(r[k], t, i)
    ensures !Test(r, t)
  {
    forall k, i | 0 <= k < |r| && 0 <= i <= |t| ensures !MatchFrom(r[k], t, i) {
      assert !LeadAt(r[k], t, i);
      HeadAt(r[k], t, i);
    }
  }

  /** A regular expression matches nowhere when neither part of its list of
      alternatives does; lets a refutation be done part by part. */
  lemma RefuteSplit(r: Regex, n: nat, t: string)
    requires n <= |r| && !Test(r[..n], t) && !Test(r[n..], t)
    ensures !Test(r, t)
  {
    forall k, i | 0 <= k < |r| && 0 <= i <= |t| ensures !MatchFrom(r[k], t, i) {
      if k < n {
        assert r[..n][k] == r[k];
      } else {
        assert r[n..][k - n] == r[k];
      }
    }
  }

  /** The pattern starts with `\b` or with a word character. */
  predicate StartsWithWord(p: Pattern) {
    |p| > 0 && (p[0] == Boundary || (p[0].Lit? && |p[0].s| > 0 && IsWordChar(p[0].s[0])))
  }

  predicate AllStartWithWord(r: Regex) {
    forall k :: 0 <= k < |r| ==> StartsWithWord(r[k])
  }

  /** Such a regular expression finds nothing in text that is only white
      space: there is no word character for `\b` or the first letter to meet. */
  lemma RefuteInBlank(r: Regex, t: string)
    requires AllStartWithWord(r) && TrimmedEmpty(t)
    ensures !Test(r, t)
  {
    forall k, i | 0 <= k < |r| && 0 <= i <= |t| ensures !MatchFrom(r[k], t, i) {
      HeadAt(r[k], t, i);
    }
  }
}
