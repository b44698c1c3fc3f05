/** Product-name normalisation and the "similar name" search used before a
    new product is received (src/lib/similarity.ts). */
module Similarity {
  import opened Js

  // ---------- character bookkeeping ----------

  /** Every character of `s` has property `P`. */
  predicate Every(s: string, P: char -> bool)
  {
    forall k :: 0 <= k < |s| ==> P(s[k])
  }

  predicate NotUpper(c: char) { !IsUpper(c) }

  predicate NotQuote(c: char) { c != '"' }

  predicate NotTimesSign(c: char) { c != '\U{D7}' && c != '*' }

  /** No two neighbouring whitespace characters. */
  predicate NoDoubleSpace(s: string)
  {
    forall i, j :: 0 <= i < |s| && 0 <= j < |s| && j == i + 1 ==> !(IsSpace(s[i]) && IsSpace(s[j]))
  }

  // ---------- collapseSpaces ----------

  lemma {:induction false} SquashSpacesShape(s: string)
    ensures NoDoubleSpace(SquashSpaces(s))
    ensures (SquashSpaces(s) == "") == (s == "")
    ensures SquashSpaces(s) != "" ==> IsSpace(SquashSpaces(s)[0]) == IsSpace(s[0])
    decreases |s|
  {
    if s != "" {
      if IsSpace(s[0]) {
        SquashSpacesShape(TrimStart(s));
      } else {
        SquashSpacesShape(s[1..]);
      }
    }
  }

  /** A property of every character that a space also has survives the squashing. */
  lemma {:induction false} SquashSpacesKeeps(s: string, P: char -> bool)
    requires Every(s, P) && P(' ')
    ensures Every(SquashSpaces(s), P)
    decreases |s|
  {
    if s != "" {
      if IsSpace(s[0]) {
        var d := TrimStart(s);
        assert forall k :: 0 <= k < |d| ==> d[k] == s[|s| - |d| + k];
        SquashSpacesKeeps(d, P);
      } else {
        SquashSpacesKeeps(s[1..], P);
      }
    }
  }

  lemma SliceKeeps(s: string, a: nat, b: nat, P: char -> bool)
    requires a <= b <= |s|
    ensures Every(s, P) ==> Every(s[a..b], P)
    ensures NoDoubleSpace(s) ==> NoDoubleSpace(s[a..b])
  {
    var t := s[a..b];
    if NoDoubleSpace(s) {
      forall i, j | 0 <= i < |t| && 0 <= j < |t| && j == i + 1
        ensures !(IsSpace(t[i]) && IsSpace(t[j]))
      {
        assert t[i] == s[a + i] && t[j] == s[a + j];
      }
    }
    if Every(s, P) {
      forall k | 0 <= k < |t| ensures P(t[k]) {
        assert t[k] == s[a + k];
      }
    }
  }

  lemma TrimSlice(s: string, P: char -> bool)
    ensures Every(s, P) ==> Every(Trim(s), P)
    ensures NoDoubleSpace(s) ==> NoDoubleSpace(Trim(s))
  {
    var a := TrimIsSlice(s);
    SliceKeeps(s, a, a + |Trim(s)|, P);
  }

  /** `collapseSpaces(s)` (similarity.ts) */
  function CollapseSpaces(s: string): string
  {
    Trim(SquashSpaces(s))
  }

  /** After `collapseSpaces` there is no whitespace at either end and no two
      whitespace characters in a row. */
  lemma CollapseSpacesShape(s: string)
    ensures NoDoubleSpace(CollapseSpaces(s))
    ensures var r := CollapseSpaces(s); r != "" ==> !IsSpace(r[0]) && !IsSpace(r[|r| - 1])
  {
    SquashSpacesShape(s);
    TrimSlice(SquashSpaces(s), NotUpper);
  }

  /** `collapseSpaces` brings in no character but a space. */
  lemma CollapseSpacesKeeps(s: string, P: char -> bool)
    requires Every(s, P) && P(' ')
    ensures Every(CollapseSpaces(s), P)
  {
    SquashSpacesKeeps(s, P);
    TrimSlice(SquashSpaces(s), P);
  }

  // ---------- the inch patterns ----------

  /** A regular expression made of one literal word, optionally with `\b`
      on both sides and optionally with the `i` flag. */
  datatype Pattern = Pattern(text: string, wordBounded: bool, ignoreCase: bool)

  /** The characters `\b` treats as word characters. */
  predicate IsWordChar(c: char)
  {
    ('a' <= c <= 'z') || ('A' <= c <= 'Z') || ('0' <= c <= '9') || c == '_'
  }

  predicate CharMatches(c: char, p: char, ignoreCase: bool)
  {
    if ignoreCase then LowerChar(c) == LowerChar(p) else c == p
  }

  /** The pattern matches `s` at position `i`. */
  predicate MatchAt(s: string, p: Pattern, i: int)
  {
    && p.text != "" && 0 <= i && i + |p.text| <= |s|
    && (forall k :: 0 <= k < |p.text| ==> CharMatches(s[i + k], p.text[k], p.ignoreCase))
    && (p.wordBounded ==>
          && (i == 0 || !IsWordChar(s[i - 1]))
          && (i + |p.text| == |s| || !IsWordChar(s[i + |p.text|])))
  }

  /** `s.replace(p, rep)` with the `g` flag, scanning from position `i`:
      leftmost matches, non-overlapping, matched against the original text. */
  function ReplaceFrom(s: string, p: Pattern, rep: string, i: nat): string
    requires i <= |s|
    decreases |s| - i
  {
    if i == |s| then ""
    else if MatchAt(s, p, i) then rep + ReplaceFrom(s, p, rep, i + |p.text|)
    else [s[i]] + ReplaceFrom(s, p, rep, i + 1)
  }

  function Replace(s: string, p: Pattern, rep: string): string
  {
    ReplaceFrom(s, p, rep, 0)
  }

  /** Replacing only ever brings in characters of the replacement. */
  lemma {:induction false} ReplaceFromKeeps(s: string, p: Pattern, rep: string, i: nat, P: char -> bool)
    requires i <= |s| && Every(s, P) && Every(rep, P)
    ensures Every(ReplaceFrom(s, p, rep, i), P)
    decreases |s| - i
  {
    if i < |s| {
      if MatchAt(s, p, i) {
        ReplaceFromKeeps(s, p, rep, i + |p.text|, P);
      } else {
        ReplaceFromKeeps(s, p, rep, i + 1, P);
      }
    }
  }

  lemma EveryConcat(a: string, b: string, P: char -> bool)
    requires Every(a, P) && Every(b, P)
    ensures Every(a + b, P)
  {
    forall k | 0 <= k < |a + b| ensures P((a + b)[k]) {
      if k < |a| {
        assert (a + b)[k] == a[k];
      } else {
        assert (a + b)[k] == b[k - |a|];
      }
    }
  }

  /** The first inch pattern, `"` alone, leaves no `"` behind when the
      replacement has none. */
  lemma {:induction false} QuoteGone(s: string, rep: string, i: nat)
    requires i <= |s| && Every(rep, NotQuote)
    ensures Every(ReplaceFrom(s, InchPatterns[0], rep, i), NotQuote)
    decreases |s| - i
  {
    var p := InchPatterns[0];
    if i < |s| {
      if MatchAt(s, p, i) {
        QuoteGone(s, rep, i + 1);
        EveryConcat(rep, ReplaceFrom(s, p, rep, i + 1), NotQuote);
      } else {
        assert s[i] != '"' by { assert !CharMatches(s[i + 0], p.text[0], false); }
        QuoteGone(s, rep, i + 1);
        EveryConcat([s[i]], ReplaceFrom(s, p, rep, i + 1), NotQuote);
      }
    }
  }

  const InchText: string := " in "

  /** `inchPatterns` (similarity.ts): `"`, `\binch\b` (gi), `\bin\b` (gi), and the Thai word for inch. */
  const InchPatterns: seq<Pattern> := [
    Pattern("\"", false, false),
    Pattern("inch", true, true),
    Pattern("in", true, true),
    Pattern("\U{0E19}\U{0E34}\U{0E49}\U{0E27}", false, false)
  ]

  /** The replacement text is a space, `i`, `n` and a space. */
  lemma InchTextKeeps(P: char -> bool)
    requires P(' ') && P('i') && P('n')
    ensures Every(InchText, P)
  {
    forall k | 0 <= k < |InchText| ensures P(InchText[k]) {
      assert InchText[k] in {' ', 'i', 'n'};
    }
  }

  /** The text once the patterns of `ps` have been applied in order. */
  function ApplyPatterns(s: string, ps: seq<Pattern>): string
  {
    if ps == [] then s
    else Replace(ApplyPatterns(s, ps[..|ps| - 1]), ps[|ps| - 1], InchText)
  }

  lemma {:induction false} ApplyPatternsKeeps(s: string, ps: seq<Pattern>, P: char -> bool)
    requires Every(s, P) && Every(InchText, P)
    ensures Every(ApplyPatterns(s, ps), P)
  {
    if ps != [] {
      ApplyPatternsKeeps(s, ps[..|ps| - 1], P);
      ReplaceFromKeeps(ApplyPatterns(s, ps[..|ps| - 1]), ps[|ps| - 1], InchText, 0, P);
    }
  }

  /** After the pattern loop no `"` is left: the first pattern removes them
      all and the replacement text has none. */
  lemma ReplaceInchesNoQuote(s1: string)
    ensures Every(ApplyPatterns(s1, InchPatterns), NotQuote)
  {
    var t0 := Replace(s1, InchPatterns[0], InchText);
    var t1 := Replace(t0, InchPatterns[1], InchText);
    var t2 := Replace(t1, InchPatterns[2], InchText);
    var s2 := Replace(t2, InchPatterns[3], InchText);
    assert ApplyPatterns(s1, InchPatterns[..1]) == t0 by {
      assert InchPatterns[..1][..0] == [];
    }
    assert ApplyPatterns(s1, InchPatterns[..2]) == t1 by {
      assert InchPatterns[..2][..1] == InchPatterns[..1];
    }
    assert ApplyPatterns(s1, InchPatterns[..3]) == t2 by {
      assert InchPatterns[..3][..2] == InchPatterns[..2];
    }
    assert ApplyPatterns(s1, InchPatterns) == s2 by {
      assert InchPatterns[..3] == InchPatterns[..|InchPatterns| - 1];
    }
    assert NotQuote(' ') && NotQuote('i') && NotQuote('n');
    InchTextKeeps(NotQuote);
    QuoteGone(s1, InchText, 0);
    ReplaceFromKeeps(t0, InchPatterns[1], InchText, 0, NotQuote);
    ReplaceFromKeeps(t1, InchPatterns[2], InchText, 0, NotQuote);
    ReplaceFromKeeps(t2, InchPatterns[3], InchText, 0, NotQuote);
  }

  // ---------- the last two steps ----------

  predicate IsTimes(c: char) { c == '\U{D7}' || c == 'x' || c == '*' }

  /** `s.replace(/[×x\*]/g, 'x')` */
  function UnifyTimes(s: string): string
  {
    seq(|s|, i requires 0 <= i < |s| => if IsTimes(s[i]) then 'x' else s[i])
  }

  /** `×` and `*` are gone after the unification; only `x` was brought in. */
  lemma UnifyTimesShape(s: string, P: char -> bool)
    ensures Every(UnifyTimes(s), NotTimesSign)
    ensures Every(s, P) && P('x') ==> Every(UnifyTimes(s), P)
  {
    var r := UnifyTimes(s);
    assert forall k :: 0 <= k < |r| ==> r[k] == (if IsTimes(s[k]) then 'x' else s[k]);
  }

  predicate IsTrailingMark(c: char) { c == '.' || c == ',' || c == '/' || c == '\\' || c == '-' }

  /** `s.replace(/[\.,/\\\-]+$/g, '')`: drops the longest run of these marks
      at the end of `s`. */
  function StripTrailingMarks(s: string): string
  {
    if s != "" && IsTrailingMark(s[|s| - 1]) then StripTrailingMarks(s[..|s| - 1]) else s
  }

  /** What is removed is exactly the longest run of marks at the end. */
  lemma {:induction false} StripTrailingMarksShape(s: string)
    ensures StripTrailingMarks(s) <= s
    ensures forall i :: |StripTrailingMarks(s)| <= i < |s| ==> IsTrailingMark(s[i])
    ensures StripTrailingMarks(s) != "" ==> !IsTrailingMark(StripTrailingMarks(s)[|StripTrailingMarks(s)| - 1])
  {
    if s != "" && IsTrailingMark(s[|s| - 1]) {
      StripTrailingMarksShape(s[..|s| - 1]);
    }
  }

  /** Stripping keeps a prefix. */
  lemma StripKeeps(s: string, P: char -> bool)
    requires Every(s, P)
    ensures Every(StripTrailingMarks(s), P)
  {
    StripTrailingMarksShape(s);
    var r := StripTrailingMarks(s);
    assert forall k :: 0 <= k < |r| ==> r[k] == s[k];
  }

  // ---------- normalizeName ----------

  /** What `normalizeName(raw)` returns. */
  function Normalize(raw: string): string
  {
    Finish(ApplyPatterns(CollapseSpaces(Lower(raw)), InchPatterns))
  }

  /** The last three steps of `normalizeName`: a second collapse, `×`/`*`
      to `x`, and the stripping of trailing marks. */
  function Finish(s2: string): string
  {
    StripTrailingMarks(UnifyTimes(CollapseSpaces(s2)))
  }

  /** The loop of `normalizeName` that applies each of `inchPatterns` in turn. */
  method ReplaceInches(s0: string) returns (s: string)
    ensures s == ApplyPatterns(s0, InchPatterns)
  {
    s := s0;
    for k := 0 to |InchPatterns|
      invariant s == ApplyPatterns(s0, InchPatterns[..k])
    {
      assert InchPatterns[..k + 1][..k] == InchPatterns[..k];
      s := Replace(s, InchPatterns[k], InchText);
    }
    assert InchPatterns[..|InchPatterns|] == InchPatterns;
  }

  /** `normalizeName(raw)` (similarity.ts) */
  method NormalizeName(raw: string) returns (s: string)
    ensures s == Normalize(raw)
  {
    s := Lower(raw);
    s := CollapseSpaces(s);
    s := ReplaceInches(s);
    s := CollapseSpaces(s);
    s := UnifyTimes(s);
    s := StripTrailingMarks(s);
  }

  /** The last three steps bring in only a space and `x`. */
  lemma FinishKeeps(s2: string, P: char -> bool)
    requires Every(s2, P) && P(' ') && P('x')
    ensures Every(Finish(s2), P)
  {
    var s3 := CollapseSpaces(s2);
    CollapseSpacesKeeps(s2, P);
    var s4 := UnifyTimes(s3);
    UnifyTimesShape(s3, P);
    StripKeeps(s4, P);
    assert Finish(s2) == StripTrailingMarks(s4);
  }

  /** The last three steps leave no `×`, no `*` and no trailing mark. */
  lemma FinishShape(s2: string)
    ensures Every(Finish(s2), NotTimesSign)
    ensures Finish(s2) == "" || !IsTrailingMark(Finish(s2)[|Finish(s2)| - 1])
  {
    var s3 := CollapseSpaces(s2);
    var s4 := UnifyTimes(s3);
    UnifyTimesShape(s3, NotTimesSign);
    StripKeeps(s4, NotTimesSign);
    StripTrailingMarksShape(s4);
    assert Finish(s2) == StripTrailingMarks(s4);
  }

  /** The steps before the last three bring in no upper-case letter. */
  lemma PrefixStepsNoUpper(s0: string)
    requires Every(s0, NotUpper)
    ensures Every(ApplyPatterns(CollapseSpaces(s0), InchPatterns), NotUpper)
  {
    CollapseSpacesKeeps(s0, NotUpper);
    assert NotUpper(' ') && NotUpper('i') && NotUpper('n');
    InchTextKeeps(NotUpper);
    ApplyPatternsKeeps(CollapseSpaces(s0), InchPatterns, NotUpper);
  }

  /** The normal form has no upper-case letter, no `"`, no `×` and no `*`,
      and does not end in one of the stripped marks. */
  lemma NormalizeShape(raw: string)
    ensures Every(Normalize(raw), NotUpper)
    ensures Every(Normalize(raw), NotQuote)
    ensures Every(Normalize(raw), NotTimesSign)
    ensures Normalize(raw) == "" || !IsTrailingMark(Normalize(raw)[|Normalize(raw)| - 1])
  {
    var s2 := ApplyPatterns(CollapseSpaces(Lower(raw)), InchPatterns);
    assert Every(Lower(raw), NotUpper);
    PrefixStepsNoUpper(Lower(raw));
    FinishKeeps(s2, NotUpper);
    ReplaceInchesNoQuote(CollapseSpaces(Lower(raw)));
    FinishKeeps(s2, NotQuote);
    FinishShape(s2);
  }

  /** `isExactNameMatch(a, b)` (similarity.ts) */
  function IsExactNameMatch(a: string, b: string): (r: bool)
    ensures a == b ==> r
  {
    Normalize(a) == Normalize(b)
  }

  /** Exact matching is an equivalence: names are grouped by their normal form. */
  lemma ExactMatchEquivalence(a: string, b: string, c: string)
    ensures IsExactNameMatch(a, b) == IsExactNameMatch(b, a)
    ensures IsExactNameMatch(a, b) && IsExactNameMatch(b, c) ==> IsExactNameMatch(a, c)
  {
  }

  // ---------- similarCandidates ----------

  /** One normal form contains the other. */
  predicate Overlaps(q: string, cn: string)
  {
    Contains(cn, q) || Contains(q, cn)
  }

  /** The test in the loop of `similarCandidates` for a candidate whose
      normal form is `cn`, against the normalised query `q`. */
  predicate Keeps(q: string, cn: string)
  {
    cn != "" && Overlaps(q, cn)
  }

  /** The candidates of `cs` whose normal form under `norm` passes the test,
      each kept once, at its first occurrence. */
  function Picks(q: string, cs: seq<string>, norm: string -> string): seq<string>
  {
    if cs == [] then []
    else
      var r := Picks(q, cs[..|cs| - 1], norm);
      var c := cs[|cs| - 1];
      if Keeps(q, norm(c)) && c !in r then r + [c] else r
  }

  /** What `similarCandidates(query, candidates)` returns. */
  function Similar(query: string, candidates: seq<string>): seq<string>
  {
    var q := Normalize(query);
    if q == "" || Utf16Length(q) < 2 then [] else Picks(q, candidates, Normalize)
  }

  /** One more candidate: it is appended when it passes and is new. */
  lemma PicksStep(q: string, cs: seq<string>, i: nat, norm: string -> string)
    requires i < |cs|
    ensures Picks(q, cs[..i + 1], norm) ==
      var r := Picks(q, cs[..i], norm);
      if Keeps(q, norm(cs[i])) && cs[i] !in r then r + [cs[i]] else r
  {
    assert cs[..i + 1][..i] == cs[..i];
  }

  /** The loop of `similarCandidates`, with the `seen` set beside `out`. */
  method PickCandidates(q: string, candidates: seq<string>) returns (out: seq<string>)
    ensures out == Picks(q, candidates, Normalize)
  {
    out := [];
    var seen: set<string> := {};
    for i := 0 to |candidates|
      invariant out == Picks(q, candidates[..i], Normalize)
      invariant forall x :: x in seen <==> x in out
    {
      var c := candidates[i];
      PicksStep(q, candidates, i, Normalize);
      var cn := NormalizeName(c);
      // `if (!cn) continue;` followed by the `includes` test
      if Keeps(q, cn) {
        if c !in seen {
          out := out + [c];
          seen := seen + {c};
        }
      }
    }
    assert candidates[..|candidates|] == candidates;
  }

  /** `similarCandidates(query, candidates)` (similarity.ts) */
  method SimilarCandidates(query: string, candidates: seq<string>) returns (out: seq<string>)
    ensures out == Similar(query, candidates)
  {
    var q := NormalizeName(query);
    if q == "" {
      return [];
    }
    if Utf16Length(q) < 2 {
      return [];
    }
    out := PickCandidates(q, candidates);
  }

  /** First index of `x` in `s`. */
  function IndexOf(s: seq<string>, x: string): (i: nat)
    requires x in s
    ensures i < |s| && s[i] == x && x !in s[..i]
  {
    if s[0] == x then 0 else 1 + IndexOf(s[1..], x)
  }

  lemma {:induction false} PicksMembers(q: string, cs: seq<string>, norm: string -> string)
    ensures forall c :: c in Picks(q, cs, norm) <==> c in cs && Keeps(q, norm(c))
  {
    if cs != [] {
      var init := cs[..|cs| - 1];
      PicksMembers(q, init, norm);
      assert cs == init + [cs[|cs| - 1]];
    }
  }

  lemma {:induction false} PicksDistinct(q: string, cs: seq<string>, norm: string -> string)
    ensures forall i, j :: 0 <= i < j < |Picks(q, cs, norm)| ==> Picks(q, cs, norm)[i] != Picks(q, cs, norm)[j]
  {
    if cs != [] {
      PicksDistinct(q, cs[..|cs| - 1], norm);
    }
  }

  lemma IndexOfPrefix(s: seq<string>, n: nat, x: string)
    requires n <= |s| && x in s[..n]
    ensures IndexOf(s, x) == IndexOf(s[..n], x)
  {
    var i := IndexOf(s[..n], x);
    assert s[..n][..i] == s[..i];
  }

  /** An order by first index in a prefix is the order by first index in
      the whole sequence, and ends before the prefix does. */
  lemma InOrderFromPrefix(cs: seq<string>, n: nat, r: seq<string>)
    requires n <= |cs|
    requires forall x :: x in r ==> x in cs[..n]
    requires forall i, j :: 0 <= i < j < |r| ==> IndexOf(cs[..n], r[i]) < IndexOf(cs[..n], r[j])
    ensures forall x :: x in r ==> x in cs && IndexOf(cs, x) < n
    ensures forall i, j :: 0 <= i < j < |r| ==> IndexOf(cs, r[i]) < IndexOf(cs, r[j])
  {
    forall x | x in r ensures x in cs && IndexOf(cs, x) == IndexOf(cs[..n], x) < n {
      IndexOfPrefix(cs, n, x);
    }
  }

  /** Appending the element at index `n`, not found before, keeps the order. */
  lemma InOrderAppend(cs: seq<string>, n: nat, r: seq<string>)
    requires n < |cs| && cs[n] !in cs[..n]
    requires forall x :: x in r ==> x in cs && IndexOf(cs, x) < n
    requires forall i, j :: 0 <= i < j < |r| ==> IndexOf(cs, r[i]) < IndexOf(cs, r[j])
    ensures forall i, j :: 0 <= i < j < |r + [cs[n]]| ==>
      IndexOf(cs, (r + [cs[n]])[i]) < IndexOf(cs, (r + [cs[n]])[j])
  {
    var c := cs[n];
    var r' := r + [c];
    assert IndexOf(cs, c) == n;
    forall i, j | 0 <= i < j < |r'|
      ensures IndexOf(cs, r'[i]) < IndexOf(cs, r'[j])
    {
      assert r'[i] == r[i] && r[i] in r;
      if j < |r| {
        assert r'[j] == r[j];
      }
    }
  }

  lemma {:induction false} PicksInOrder(q: string, cs: seq<string>, norm: string -> string)
    ensures forall c :: c in Picks(q, cs, norm) ==> c in cs
    ensures forall i, j :: 0 <= i < j < |Picks(q, cs, norm)| ==>
      IndexOf(cs, Picks(q, cs, norm)[i]) < IndexOf(cs, Picks(q, cs, norm)[j])
  {
    PicksMembers(q, cs, norm);
    if cs != [] {
      var n := |cs| - 1;
      var init := cs[..n];
      var r := Picks(q, init, norm);
      var c := cs[n];
      PicksInOrder(q, init, norm);
      InOrderFromPrefix(cs, n, r);
      if Keeps(q, norm(c)) && c !in r {
        PicksMembers(q, init, norm);
        InOrderAppend(cs, n, r);
      }
    }
  }

  /** What the loop keeps: exactly the candidates that pass the test, no
      name twice, in the order of their first occurrence. */
  lemma PicksContract(q: string, cs: seq<string>, norm: string -> string)
    ensures forall c :: c in Picks(q, cs, norm) <==> c in cs && Keeps(q, norm(c))
    ensures PicksOrderly(cs, Picks(q, cs, norm))
  {
    PicksMembers(q, cs, norm);
    PicksOrder(q, cs, norm);
  }

  /** `r` lists elements of `cs`, none twice, in order of first occurrence. */
  predicate PicksOrderly(cs: seq<string>, r: seq<string>)
  {
    && (forall i :: 0 <= i < |r| ==> r[i] in cs)
    && (forall i, j :: 0 <= i < j < |r| ==> r[i] != r[j] && IndexOf(cs, r[i]) < IndexOf(cs, r[j]))
  }

  lemma PicksOrder(q: string, cs: seq<string>, norm: string -> string)
    ensures PicksOrderly(cs, Picks(q, cs, norm))
  {
    PicksDistinct(q, cs, norm);
    PicksInOrder(q, cs, norm);
  }

  /** A name is offered exactly when the query's normal form is at least two
      code units long, the name is a candidate, its normal form is not blank
      and one normal form contains the other. */
  lemma SimilarMember(query: string, candidates: seq<string>, c: string)
    ensures var q := Normalize(query);
      c in Similar(query, candidates) <==>
        Utf16Length(q) >= 2 && c in candidates && Normalize(c) != "" && Overlaps(q, Normalize(c))
  {
    PicksMembers(Normalize(query), candidates, Normalize);
  }

  /** The result lists no name twice, in the order of first occurrence among
      the candidates. */
  lemma SimilarOrdered(query: string, candidates: seq<string>)
    ensures PicksOrderly(candidates, Similar(query, candidates))
  {
    PicksOrder(Normalize(query), candidates, Normalize);
  }

  /** A candidate whose normal form equals the query's is always offered
      (when the query is long enough). */
  lemma ExactMatchIsSimilar(query: string, candidates: seq<string>, c: string)
    requires c in candidates && IsExactNameMatch(query, c)
    requires Utf16Length(Normalize(query)) >= 2
    ensures c in Similar(query, candidates)
  {
    ContainsSelf(Normalize(c));
    PicksMembers(Normalize(query), candidates, Normalize);
  }
}
