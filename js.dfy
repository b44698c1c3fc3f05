/** The JavaScript primitives the front end relies on, stated once: optional
    values, the result of `Number(...)`, `number | ''` form fields, the
    whitespace class of `\s` and `String.prototype.trim`, ASCII case mapping,
    `includes`/`startsWith`, UTF-16 `length`, `String(n)` for naturals,
    `split(/\s+/)` and the lexicographic order that stands for `localeCompare`. */
module Js {

  datatype Option<+T> = None | Some(value: T)

  /** The value `Number(x)` produces. */
  datatype Num = NaN | PosInf | NegInf | Finite(v: real)

  /** A field of type `number | ''` bound to an `<input type="number">`. */
  datatype Field = Blank | Val(v: real)

  /** The `e.target.value` of a number input as a handler reads it, and a
      `number | ''` field that stores `Number(e.target.value)`: either
      `''`, or some other text that `Number(...)` reads as `n`. */
  datatype InputText = EmptyText | Entered(n: Num)

  /** `Number(v)` of such a value: `''` reads as 0, any other text as its number. */
  function InputNumber(x: InputText): (n: Num)
    ensures x.EmptyText? ==> n == Finite(0.0)
    ensures x.Entered? ==> n == x.n
  {
    match x
    case EmptyText => Finite(0.0)
    case Entered(n) => n
  }

  /** A `number | ''` field read with `typeof f === 'number' ? f : 0`,
      which is also what `Number(f || 0)` gives. */
  function OrZero(f: Field): (r: real)
    ensures f.Blank? ==> r == 0.0
    ensures f.Val? ==> r == f.v
  {
    match f
    case Blank => 0.0
    case Val(v) => v
  }

  function Max(a: real, b: real): (r: real)
    ensures r >= a && r >= b && (r == a || r == b)
  {
    if a >= b then a else b
  }

  function Min(a: real, b: real): (r: real)
    ensures r <= a && r <= b && (r == a || r == b)
  {
    if a <= b then a else b
  }

  /** The integer `a % b` for a positive `b`: the sign follows `a`
      (truncating), unlike Dafny's Euclidean `%`. */
  function Rem(a: int, b: int): (r: int)
    requires b > 0
    ensures a >= 0 ==> r == a % b
    ensures -b < r < b
    ensures a >= 0 ==> r >= 0
    ensures a < 0 ==> r <= 0
  {
    if a >= 0 then a % b else -((-a) % b)
  }

  /** `if (failed) errors[key] = message` */
  function RecordIf<K>(errors: map<K, string>, failed: bool, key: K, message: string): map<K, string>
  {
    if failed then errors[key := message] else errors
  }

  // ---------- whitespace ----------

  /** ECMAScript WhiteSpace and LineTerminator code points: the class `\s`
      and the characters `trim()` removes. */
  predicate IsSpace(c: char)
  {
    || c == ' ' || c == '\t' || c == '\n' || c == '\U{B}' || c == '\U{C}' || c == '\r'
    || c == '\U{A0}' || c == '\U{1680}' || ('\U{2000}' <= c <= '\U{200A}')
    || c == '\U{2028}' || c == '\U{2029}' || c == '\U{202F}' || c == '\U{205F}'
    || c == '\U{3000}' || c == '\U{FEFF}'
  }

  /** The characters `.` does not match in a regular expression. */
  predicate IsLineTerminator(c: char)
  {
    c == '\n' || c == '\r' || c == '\U{2028}' || c == '\U{2029}'
  }

  predicate NoSpace(s: string)
  {
    forall i :: 0 <= i < |s| ==> !IsSpace(s[i])
  }

  predicate AllSpace(s: string)
  {
    forall i :: 0 <= i < |s| ==> IsSpace(s[i])
  }

  function TrimStart(s: string): (r: string)
    ensures |r| <= |s| && r == s[|s| - |r|..]
    ensures AllSpace(s[..|s| - |r|])
    ensures r != "" ==> !IsSpace(r[0])
    decreases |s|
  {
    if s != "" && IsSpace(s[0]) then
      var r := TrimStart(s[1..]);
      assert s[..|s| - |r|] == [s[0]] + s[1..][..|s| - 1 - |r|];
      r
    else s
  }

  function TrimEnd(s: string): (r: string)
    ensures |r| <= |s| && r == s[..|r|]
    ensures AllSpace(s[|r|..])
    ensures r != "" ==> !IsSpace(r[|r| - 1])
    decreases |s|
  {
    if s != "" && IsSpace(s[|s| - 1]) then
      var t := s[..|s| - 1];
      var r := TrimEnd(t);
      assert s[|r|..] == t[|r|..] + [s[|s| - 1]];
      AllSpaceSnoc(t[|r|..], s[|s| - 1]);
      r
    else s
  }

  lemma AllSpaceSnoc(a: string, c: char)
    requires AllSpace(a) && IsSpace(c)
    ensures AllSpace(a + [c])
  {
    assert forall i :: 0 <= i < |a| ==> (a + [c])[i] == a[i];
  }

  /** `s.trim()` */
  function Trim(s: string): (r: string)
    ensures r != "" ==> !IsSpace(r[0]) && !IsSpace(r[|r| - 1])
  {
    TrimEnd(TrimStart(s))
  }

  lemma TrimEmptyIffAllSpace(s: string)
    ensures Trim(s) == "" <==> AllSpace(s)
  {
    var t := TrimStart(s);
    if Trim(s) == "" {
      forall i | 0 <= i < |s| ensures IsSpace(s[i]) {
        assert s[i] == s[..|s| - |t|][i];
      }
    }
  }

  lemma TrimNoSpace(s: string)
    requires NoSpace(s)
    ensures Trim(s) == s
  {
  }

  /** `trim()` keeps a contiguous part of its input. */
  lemma TrimIsSlice(s: string) returns (a: nat)
    ensures a + |Trim(s)| <= |s| && Trim(s) == s[a..a + |Trim(s)|]
  {
    var u := TrimStart(s);
    a := |s| - |u|;
    assert Trim(s) == u[..|Trim(s)|];
  }

  // ---------- case mapping (ASCII) ----------

  predicate IsUpper(c: char) { 'A' <= c <= 'Z' }

  function LowerChar(c: char): (r: char)
    ensures !IsUpper(r)
    ensures !IsUpper(c) ==> r == c
  {
    if IsUpper(c) then (c as int + 32) as char else c
  }

  function UpperChar(c: char): (r: char)
    ensures !('a' <= r <= 'z')
  {
    if 'a' <= c <= 'z' then (c as int - 32) as char else c
  }

  /** `s.toLowerCase()`, on ASCII letters. */
  function Lower(s: string): (r: string)
    ensures |r| == |s|
    ensures forall i :: 0 <= i < |s| ==> r[i] == LowerChar(s[i])
  {
    seq(|s|, i requires 0 <= i < |s| => LowerChar(s[i]))
  }

  /** `s.toUpperCase()`, on ASCII letters. */
  function Upper(s: string): (r: string)
    ensures |r| == |s|
    ensures forall i :: 0 <= i < |s| ==> r[i] == UpperChar(s[i])
  {
    seq(|s|, i requires 0 <= i < |s| => UpperChar(s[i]))
  }

  predicate HasNoUpper(s: string)
  {
    forall i :: 0 <= i < |s| ==> !IsUpper(s[i])
  }

  // ---------- searching ----------

  /** `s.includes(t)` */
  predicate Contains(s: string, t: string)
  {
    exists i | 0 <= i <= |s| - |t| :: OccursAt(s, t, i)
  }

  predicate OccursAt(s: string, t: string, i: int)
  {
    0 <= i <= |s| - |t| && s[i..i + |t|] == t
  }

  lemma ContainsEmpty(s: string)
    ensures Contains(s, "")
  {
    assert OccursAt(s, "", 0);
  }

  lemma ContainsSelf(s: string)
    ensures Contains(s, s)
  {
    assert OccursAt(s, s, 0);
  }

  /** `s.startsWith(p)` */
  predicate StartsWith(s: string, p: string)
  {
    p <= s
  }

  // ---------- lengths and numbers as text ----------

  /** `s.length`: the number of UTF-16 code units. */
  function Utf16Length(s: string): (n: nat)
    ensures n >= |s|
    ensures n < 2 * |s| + 1
  {
    if s == "" then 0
    else (if s[0] as int >= 0x1_0000 then 2 else 1) + Utf16Length(s[1..])
  }

  function DigitChar(d: nat): (c: char)
    requires d < 10
    ensures '0' <= c <= '9'
  {
    ('0' as int + d) as char
  }

  /** `String(n)` for a natural number. */
  function NatToString(n: nat): (r: string)
    ensures |r| >= 1
    ensures forall i :: 0 <= i < |r| ==> '0' <= r[i] <= '9'
    ensures (r[0] == '0') == (n == 0)
  {
    if n < 10 then [DigitChar(n)] else NatToString(n / 10) + [DigitChar(n % 10)]
  }

  // ---------- Number(text) ----------

  predicate IsDigit(c: char)
  {
    '0' <= c <= '9'
  }

  predicate AllDigits(s: string)
  {
    forall i :: 0 <= i < |s| ==> IsDigit(s[i])
  }

  function DigitValue(c: char): (d: nat)
    requires IsDigit(c)
    ensures d < 10
  {
    c as int - '0' as int
  }

  /** The value of a run of decimal digits. */
  function DigitsValue(s: string): nat
    requires AllDigits(s)
  {
    if s == "" then 0 else DigitsValue(s[..|s| - 1]) * 10 + DigitValue(s[|s| - 1])
  }

  /** The value of the digits after a decimal point. */
  function FractionValue(s: string): (r: real)
    requires AllDigits(s)
    ensures 0.0 <= r <= 1.0
  {
    if s == "" then 0.0 else (DigitValue(s[0]) as real + FractionValue(s[1..])) / 10.0
  }

  /** The index of the first '.', or `|s|` when there is none. */
  function FirstDot(s: string): (k: nat)
    ensures k <= |s|
    ensures k < |s| ==> s[k] == '.'
    ensures forall i :: 0 <= i < k ==> s[i] != '.'
  {
    if s == "" then 0 else if s[0] == '.' then 0 else 1 + FirstDot(s[1..])
  }

  /** An unsigned decimal literal: digits with at most one point and at
      least one digit. */
  function UnsignedValue(s: string): (r: Option<real>)
    ensures r.Some? ==> r.value >= 0.0
  {
    var k := FirstDot(s);
    var whole := s[..k];
    var frac := if k < |s| then s[k + 1..] else "";
    if AllDigits(whole) && AllDigits(frac) && |whole| + |frac| > 0
    then Some(DigitsValue(whole) as real + FractionValue(frac))
    else None
  }

  /** `Number(s)` for a string, for decimal literals: blank text is 0, an
      optional sign, `Infinity`, and NaN for anything else. */
  function StringToNumber(s: string): (n: Num)
    ensures Trim(s) == "" ==> n == Finite(0.0)
  {
    var t := Trim(s);
    if t == "" then Finite(0.0)
    else
      var neg := t[0] == '-';
      var body := if t[0] == '-' || t[0] == '+' then t[1..] else t;
      if body == "Infinity" then (if neg then NegInf else PosInf)
      else
        match UnsignedValue(body)
        case None => NaN
        case Some(v) => Finite(if neg then -v else v)
  }

  lemma {:induction false} DigitsOfNatToString(n: nat)
    ensures AllDigits(NatToString(n)) && DigitsValue(NatToString(n)) == n
  {
    var r := NatToString(n);
    if n >= 10 {
      DigitsOfNatToString(n / 10);
      assert r[..|r| - 1] == NatToString(n / 10);
    }
  }

  /** The decimal numeral of a natural number reads back as that number. */
  lemma NumberOfNatToString(n: nat)
    ensures StringToNumber(NatToString(n)) == Finite(n as real)
  {
    DigitsOfNatToString(n);
    NumberOfDigits(NatToString(n));
  }

  lemma NumberOfDigits(s: string)
    requires AllDigits(s) && s != ""
    ensures StringToNumber(s) == Finite(DigitsValue(s) as real)
  {
    assert NoSpace(s);
    TrimNoSpace(s);
    assert s[0] != '-' && s[0] != '+';
    assert s != "Infinity" by {
      assert "Infinity"[0] == 'I';
    }
    UnsignedOfDigits(s);
  }

  lemma UnsignedOfDigits(s: string)
    requires AllDigits(s) && s != ""
    ensures UnsignedValue(s) == Some(DigitsValue(s) as real)
  {
    FirstDotAbsent(s);
    assert s[..|s|] == s;
  }

  lemma {:induction false} FirstDotAbsent(s: string)
    requires forall i :: 0 <= i < |s| ==> s[i] != '.'
    ensures FirstDot(s) == |s|
  {
    if s != "" {
      FirstDotAbsent(s[1..]);
    }
  }

  /** `Array.from({ length: n }, (_, i) => String(i + 1))` */
  function NumberLabels(n: nat): (r: seq<string>)
    ensures |r| == n
    ensures forall i :: 0 <= i < n ==> r[i] == NatToString(i + 1)
  {
    if n == 0 then [] else NumberLabels(n - 1) + [NatToString(n)]
  }

  lemma {:induction false} NatToStringInjective(m: nat, n: nat)
    requires NatToString(m) == NatToString(n)
    ensures m == n
  {
    var r := NatToString(m);
    if m < 10 && n < 10 {
    } else if m < 10 || n < 10 {
      // one side has a single digit, the other at least two: impossible
    } else {
      assert NatToString(m / 10) == r[..|r| - 1] == NatToString(n / 10);
      NatToStringInjective(m / 10, n / 10);
      assert DigitChar(m % 10) == r[|r| - 1] == DigitChar(n % 10);
    }
  }

  // ---------- split(/\s+/) ----------

  /** The longest prefix of `s` without whitespace. */
  function Word(s: string): (w: string)
    ensures w <= s && NoSpace(w)
    ensures |w| < |s| ==> IsSpace(s[|w|])
  {
    if s == "" || IsSpace(s[0]) then "" else [s[0]] + Word(s[1..])
  }

  /** `s.replace(/\s+/g, ' ')`: each maximal run of whitespace becomes one space. */
  function SquashSpaces(s: string): string
    decreases |s|
  {
    if s == "" then ""
    else if IsSpace(s[0]) then " " + SquashSpaces(TrimStart(s))
    else [s[0]] + SquashSpaces(s[1..])
  }

  lemma {:induction false} SquashNoSpace(w: string)
    requires NoSpace(w)
    ensures SquashSpaces(w) == w
  {
    if w != "" {
      SquashNoSpace(w[1..]);
      assert w == [w[0]] + w[1..];
    }
  }

  /** A leading word is kept as it is. */
  lemma {:induction false} SquashWordPrefix(w: string, t: string)
    requires NoSpace(w)
    ensures SquashSpaces(w + t) == w + SquashSpaces(t)
  {
    if w == "" {
      assert w + t == t;
    } else {
      var c, w1 := w[0], w[1..];
      assert w + t == [c] + (w1 + t);
      SquashCons(c, w1 + t);
      SquashWordPrefix(w1, t);
      ConsConcat(w, SquashSpaces(t));
    }
  }

  /** A word followed by a run of whitespace: the word is kept and the run
      becomes one space. */
  lemma SquashAfterWord(w: string, rest: string)
    requires NoSpace(w) && rest != "" && IsSpace(rest[0])
    ensures SquashSpaces(w + rest) == w + " " + SquashSpaces(TrimStart(rest))
  {
    SquashWordPrefix(w, rest);
    var t := SquashSpaces(TrimStart(rest));
    assert SquashSpaces(rest) == " " + t;
    assert w + (" " + t) == w + " " + t;
  }

  lemma SquashCons(c: char, x: string)
    requires !IsSpace(c)
    ensures SquashSpaces([c] + x) == [c] + SquashSpaces(x)
  {
    assert ([c] + x)[1..] == x;
  }

  lemma ConsConcat(w: string, u: string)
    requires w != ""
    ensures [w[0]] + (w[1..] + u) == w + u
  {
    var a := [w[0]] + (w[1..] + u);
    var b := w + u;
    assert |a| == |b|;
    forall i | 0 <= i < |a| ensures a[i] == b[i] {
      if 0 < i < |w| {
        assert a[i] == w[1..][i - 1];
      }
    }
  }

  /** `s.split(/\s+/)`: the pieces between maximal runs of whitespace,
      empty pieces at the ends included. */
  function Split(s: string): (pieces: seq<string>)
    ensures |pieces| >= 1
    ensures forall k :: 0 <= k < |pieces| ==> NoSpace(pieces[k])
    decreases |s|
  {
    var w := Word(s);
    if |w| == |s| then [w] else [w] + Split(TrimStart(s[|w|..]))
  }

  /** The pieces of the split, joined with single spaces, give back the text
      with each run of whitespace squashed to one space. */
  lemma {:induction false} SplitSquashes(s: string)
    ensures Join(Split(s), " ") == SquashSpaces(s)
    decreases |s|
  {
    var w := Word(s);
    if |w| == |s| {
      assert w == s;
      SquashNoSpace(w);
    } else {
      var rest := s[|w|..];
      assert s == w + rest;
      SquashAfterWord(w, rest);
      SplitSquashes(TrimStart(rest));
      assert Split(s) == [w] + Split(TrimStart(rest));
    }
  }

  /** `.filter(Boolean)` on strings. */
  function NonEmpty(xs: seq<string>): (r: seq<string>)
    ensures forall k :: 0 <= k < |r| ==> r[k] != "" && r[k] in xs
    ensures forall x :: x in xs && x != "" ==> x in r
  {
    if xs == [] then []
    else if xs[0] == "" then NonEmpty(xs[1..])
    else [xs[0]] + NonEmpty(xs[1..])
  }

  /** `xs.join(sep)` */
  function Join(xs: seq<string>, sep: string): (r: string)
  {
    if xs == [] then ""
    else if |xs| == 1 then xs[0]
    else xs[0] + sep + Join(xs[1..], sep)
  }

  /** Each entry is a non-empty run of non-whitespace characters. */
  predicate AllWords(xs: seq<string>)
  {
    forall k :: 0 <= k < |xs| ==> xs[k] != "" && NoSpace(xs[k])
  }

  lemma {:induction false} WordOfWord(w: string)
    requires NoSpace(w)
    ensures Word(w) == w
  {
    if w != "" {
      WordOfWord(w[1..]);
      assert w == [w[0]] + w[1..];
    }
  }

  lemma {:induction false} WordBeforeSpace(w: string, rest: string)
    requires NoSpace(w) && rest != "" && IsSpace(rest[0])
    ensures Word(w + rest) == w
  {
    if w != "" {
      assert (w + rest)[1..] == w[1..] + rest;
      WordBeforeSpace(w[1..], rest);
      assert w == [w[0]] + w[1..];
    }
  }

  lemma {:induction false} JoinEnds(xs: seq<string>)
    requires |xs| >= 1 && AllWords(xs)
    ensures var r := Join(xs, " ");
      r != "" && r[0] == xs[0][0] && r[|r| - 1] == xs[|xs| - 1][|xs[|xs| - 1]| - 1]
  {
    if |xs| > 1 {
      JoinEnds(xs[1..]);
    }
  }

  /** One separating space ends the first piece and is dropped. */
  lemma {:induction false} SplitAfterWord(w: string, rest: string)
    requires NoSpace(w) && rest != "" && !IsSpace(rest[0])
    ensures Split(w + " " + rest) == [w] + Split(rest)
  {
    var s := w + " " + rest;
    var tail := " " + rest;
    assert s == w + tail;
    WordBeforeSpace(w, tail);
    assert Word(s) == w && |w| < |s|;
    assert s[|w|..] == tail;
    assert tail[1..] == rest;
    assert TrimStart(tail) == TrimStart(rest);
    assert TrimStart(rest) == rest;
    assert Split(s) == [w] + Split(TrimStart(s[|w|..]));
  }

  /** Splitting the space-joined words on whitespace gives the words back. */
  lemma {:induction false} SplitJoin(xs: seq<string>)
    requires |xs| >= 1 && AllWords(xs)
    ensures Split(Join(xs, " ")) == xs
  {
    if |xs| == 1 {
      WordOfWord(xs[0]);
    } else {
      JoinEnds(xs[1..]);
      SplitAfterWord(xs[0], Join(xs[1..], " "));
      SplitJoin(xs[1..]);
      assert xs == [xs[0]] + xs[1..];
    }
  }

  /** A string that neither starts nor ends with whitespace is its own trim. */
  lemma TrimUnpadded(s: string)
    requires s != "" ==> !IsSpace(s[0]) && !IsSpace(s[|s| - 1])
    ensures Trim(s) == s
  {
  }

  lemma {:induction false} NonEmptyKeepsWords(xs: seq<string>)
    requires forall k :: 0 <= k < |xs| ==> xs[k] != ""
    ensures NonEmpty(xs) == xs
  {
    if xs != [] {
      NonEmptyKeepsWords(xs[1..]);
    }
  }

  lemma NonEmptyCons(x: string, xs: seq<string>)
    ensures NonEmpty([x] + xs) == (if x == "" then [] else [x]) + NonEmpty(xs)
  {
    assert ([x] + xs)[1..] == xs;
  }

  /** Space-joined words determine the words. */
  lemma JoinedWordsDetermine(xs: seq<string>, ys: seq<string>)
    requires AllWords(xs) && AllWords(ys)
    requires Join(xs, " ") == Join(ys, " ")
    ensures xs == ys
  {
    if xs != [] {
      JoinEnds(xs);
      SplitJoin(xs);
    }
    if ys != [] {
      JoinEnds(ys);
      SplitJoin(ys);
    }
  }

  /** Whitespace before a word is all `trimStart` removes. */
  lemma {:induction false} TrimStartSpaces(sp: string, e: string)
    requires AllSpace(sp) && (e == "" || !IsSpace(e[0]))
    ensures TrimStart(sp + e) == e
  {
    if sp == "" {
      assert sp + e == e;
    } else {
      assert (sp + e)[1..] == sp[1..] + e;
      TrimStartSpaces(sp[1..], e);
    }
  }

  /** `trimEnd` of a text whose last part holds a non-space character only
      touches that part. */
  lemma {:induction false} TrimEndAppend(a: string, b: string, i: nat)
    requires i < |b| && !IsSpace(b[i])
    ensures TrimEnd(a + b) == a + TrimEnd(b)
    decreases |b|
  {
    var s := a + b;
    if IsSpace(b[|b| - 1]) {
      var b' := b[..|b| - 1];
      assert s[..|s| - 1] == a + b';
      TrimEndAppend(a, b', i);
    }
  }

  /** A word followed by nothing but whitespace trims to the word. */
  lemma {:induction false} TrimEndWord(w: string, sp: string)
    requires NoSpace(w) && AllSpace(sp)
    ensures TrimEnd(w + sp) == w
    decreases |sp|
  {
    if sp == "" {
      assert w + sp == w;
    } else {
      var sp' := sp[..|sp| - 1];
      assert (w + sp)[..|w + sp| - 1] == w + sp';
      TrimEndWord(w, sp');
    }
  }

  /** Without whitespace at either end no piece of the split is empty. */
  lemma {:induction false} SplitUnpadded(s: string)
    requires s != "" && !IsSpace(s[0]) && !IsSpace(s[|s| - 1])
    ensures AllWords(Split(s))
    decreases |s|
  {
    var w := Word(s);
    if |w| < |s| {
      var rest := s[|w|..];
      var d := TrimStart(rest);
      assert d[|d| - 1] == s[|s| - 1];
      SplitUnpadded(d);
    }
  }

  /** Leading whitespace only adds an empty first piece. */
  lemma SplitTrimStart(s: string)
    ensures NonEmpty(Split(s)) == NonEmpty(Split(TrimStart(s)))
  {
    if s != "" && IsSpace(s[0]) {
      assert Word(s) == "";
      assert s[0..] == s;
      NonEmptyCons("", Split(TrimStart(s)));
    }
  }

  /** A word, then whitespace: the word is the first piece. */
  lemma SplitAfterSpaceRun(w: string, rest: string)
    requires NoSpace(w) && rest != "" && IsSpace(rest[0])
    ensures Split(w + rest) == [w] + Split(TrimStart(rest))
  {
    WordBeforeSpace(w, rest);
    assert (w + rest)[|w|..] == rest;
  }

  /** A word, then nothing but whitespace. */
  lemma SplitTrailingRun(w: string, rest: string)
    requires NoSpace(w) && rest != "" && AllSpace(rest)
    ensures NonEmpty(Split(w + rest)) == NonEmpty(Split(TrimEnd(w + rest)))
  {
    SplitTrailingPieces(w, rest);
    TrimEndWord(w, rest);
    SplitOfWord(w);
  }

  lemma SplitTrailingPieces(w: string, rest: string)
    requires NoSpace(w) && rest != "" && AllSpace(rest)
    ensures NonEmpty(Split(w + rest)) == if w == "" then [] else [w]
  {
    SplitBeforeTrailingRun(w, rest);
    NonEmptyCons(w, [""]);
    assert NonEmpty([""]) == [];
  }

  lemma SplitBeforeTrailingRun(w: string, rest: string)
    requires NoSpace(w) && rest != "" && AllSpace(rest)
    ensures Split(w + rest) == [w] + [""]
  {
    SplitAfterSpaceRun(w, rest);
    TrimStartSpaces(rest, "");
    assert rest + "" == rest;
    assert Split("") == [""];
  }

  lemma SplitOfWord(w: string)
    requires NoSpace(w)
    ensures NonEmpty(Split(w)) == if w == "" then [] else [w]
  {
    WordOfWord(w);
    NonEmptyCons(w, []);
  }

  /** A word, whitespace, and a text `d` that starts with a word: trimming
      the end only trims `d`. */
  lemma SplitInnerRun(w: string, sp: string, d: string)
    requires NoSpace(w) && sp != "" && AllSpace(sp) && d != "" && !IsSpace(d[0])
    ensures Split(w + (sp + d)) == [w] + Split(d)
    ensures Split(TrimEnd(w + (sp + d))) == [w] + Split(TrimEnd(d))
  {
    TrimStartSpaces(sp, d);
    SplitAfterSpaceRun(w, sp + d);
    var e := TrimEnd(d);
    assert (sp + d)[|sp|] == d[0];
    TrimEndAppend(w, sp + d, |sp|);
    TrimEndAppend(sp, d, 0);
    assert e != "" && e[0] == d[0];
    TrimStartSpaces(sp, e);
    SplitAfterSpaceRun(w, sp + e);
  }

  lemma TrimStartEmpty(s: string)
    requires TrimStart(s) == ""
    ensures AllSpace(s)
  {
    assert s[..|s|] == s;
  }

  /** The inner step of `SplitTrimEnd`, on both sides. */
  lemma SplitTrimEndStep(w: string, sp: string, d: string)
    requires NoSpace(w) && sp != "" && AllSpace(sp) && d != "" && !IsSpace(d[0])
    ensures NonEmpty(Split(w + (sp + d))) == (if w == "" then [] else [w]) + NonEmpty(Split(d))
    ensures NonEmpty(Split(TrimEnd(w + (sp + d)))) == (if w == "" then [] else [w]) + NonEmpty(Split(TrimEnd(d)))
  {
    SplitInnerRun(w, sp, d);
    NonEmptyCons(w, Split(d));
    NonEmptyCons(w, Split(TrimEnd(d)));
  }

  /** Trailing whitespace only adds an empty last piece. */
  lemma {:induction false} SplitTrimEnd(s: string)
    ensures NonEmpty(Split(s)) == NonEmpty(Split(TrimEnd(s)))
    decreases |s|, 2
  {
    var w := Word(s);
    if |w| == |s| {
      assert w == s;
      if s != "" {
        assert !IsSpace(s[|s| - 1]);
      }
    } else {
      SplitTrimEndAfterWord(s, w);
    }
  }

  lemma {:induction false} SplitTrimEndAfterWord(s: string, w: string)
    requires w == Word(s) && |w| < |s|
    ensures NonEmpty(Split(s)) == NonEmpty(Split(TrimEnd(s)))
    decreases |s|, 1
  {
    var rest := s[|w|..];
    assert s == w + rest;
    if TrimStart(rest) == "" {
      TrimStartEmpty(rest);
      SplitTrailingRun(w, rest);
    } else {
      SplitTrimEndInner(w, rest);
    }
  }

  lemma {:induction false} SplitTrimEndInner(w: string, rest: string)
    requires NoSpace(w) && rest != "" && IsSpace(rest[0]) && TrimStart(rest) != ""
    ensures NonEmpty(Split(w + rest)) == NonEmpty(Split(TrimEnd(w + rest)))
    decreases |w + rest|, 0
  {
    var d := TrimStart(rest);
    var sp := rest[..|rest| - |d|];
    assert rest == sp + d;
    SplitTrimEndStep(w, sp, d);
    SplitTrimEnd(d);
  }

  /** Without whitespace at either end, dropping the empty pieces changes
      nothing. */
  lemma UnpaddedWords(u: string)
    requires u == "" || (!IsSpace(u[0]) && !IsSpace(u[|u| - 1]))
    ensures NonEmpty(Split(u)) == (if u == "" then [] else Split(u))
    ensures AllWords(NonEmpty(Split(u)))
    ensures Join(NonEmpty(Split(u)), " ") == SquashSpaces(u)
  {
    if u == "" {
      assert Split("") == [""];
      NonEmptyCons("", []);
    } else {
      SplitUnpadded(u);
      NonEmptyKeepsWords(Split(u));
      SplitSquashes(u);
    }
  }

  /** `s.split(/\s+/).filter(Boolean)`: the words of the trimmed text, and
      none when it is blank. */
  lemma SplitWords(s: string)
    ensures NonEmpty(Split(s)) == (if Trim(s) == "" then [] else Split(Trim(s)))
    ensures AllWords(NonEmpty(Split(s)))
    ensures Join(NonEmpty(Split(s)), " ") == SquashSpaces(Trim(s))
  {
    var t := TrimStart(s);
    var u := TrimEnd(t);
    assert u == Trim(s);
    SplitTrimStart(s);
    SplitTrimEnd(t);
    UnpaddedWords(u);
  }

  // ---------- lexicographic order (localeCompare) ----------

  /** `a.localeCompare(b) <= 0`, modelled as the order of code points. */
  predicate LexLe(a: string, b: string)
  {
    a == "" || (b != "" && (a[0] < b[0] || (a[0] == b[0] && LexLe(a[1..], b[1..]))))
  }

  lemma {:induction false} LexLeTotal(a: string, b: string)
    ensures LexLe(a, b) || LexLe(b, a)
  {
    if a != "" && b != "" && a[0] == b[0] {
      LexLeTotal(a[1..], b[1..]);
    }
  }

  lemma {:induction false} LexLeTransitive(a: string, b: string, c: string)
    requires LexLe(a, b) && LexLe(b, c)
    ensures LexLe(a, c)
  {
    if a != "" && b != "" && c != "" && a[0] == b[0] == c[0] {
      LexLeTransitive(a[1..], b[1..], c[1..]);
    }
  }

  lemma {:induction false} LexLeAntisymmetric(a: string, b: string)
    requires LexLe(a, b) && LexLe(b, a)
    ensures a == b
  {
    if a != "" && b != "" {
      LexLeAntisymmetric(a[1..], b[1..]);
      assert a == [a[0]] + a[1..];
      assert b == [b[0]] + b[1..];
    }
  }
}
