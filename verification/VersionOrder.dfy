/** The order of version tags: a dotted core of numbers, then an optional suffix after the first '-'
    or '+'. Strings are sequences of characters; numbers are limited to 64 bits. */
module VersionOrder {
  import opened Text

  const MAX_INT: int := 0x7FFF_FFFF_FFFF_FFFF

  // ---------------------------------------------------------------------------------------
  // Comparisons and their laws
  // ---------------------------------------------------------------------------------------

  function IntCompare(a: int, b: int): (r: int) { if a < b then -1 else if a > b then 1 else 0 }

  function CharCompare(a: char, b: char): (r: int) { IntCompare(a as int, b as int) }

  /** Lexicographic: a proper prefix comes first. */
  function Lex<T>(cmp: (T, T) -> int, s: seq<T>, t: seq<T>): (r: int) {
    if s == [] && t == [] then 0
    else if s == [] then -1
    else if t == [] then 1
    else if cmp(s[0], t[0]) != 0 then cmp(s[0], t[0])
    else Lex(cmp, s[1..], t[1..])
  }

  ghost predicate Signed<T(!new)>(cmp: (T, T) -> int) {
    forall x, y :: -1 <= cmp(x, y) <= 1 && cmp(x, y) == -cmp(y, x)
  }

  ghost predicate Transitive<T(!new)>(cmp: (T, T) -> int) {
    forall x, y, z :: cmp(x, y) <= 0 && cmp(y, z) <= 0 ==> cmp(x, z) <= 0
  }

  lemma {:induction false} LexSigned<T(!new)>(cmp: (T, T) -> int, s: seq<T>, t: seq<T>)
    requires Signed(cmp)
    ensures -1 <= Lex(cmp, s, t) <= 1 && Lex(cmp, s, t) == -Lex(cmp, t, s)
    decreases |s|
  {
    if s != [] && t != [] {
      assert cmp(s[0], t[0]) == -cmp(t[0], s[0]);
      LexSigned(cmp, s[1..], t[1..]);
    }
  }

  lemma {:induction false} LexTransitive<T(!new)>(cmp: (T, T) -> int, s: seq<T>, t: seq<T>, u: seq<T>)
    requires Signed(cmp) && Transitive(cmp) && Lex(cmp, s, t) <= 0 && Lex(cmp, t, u) <= 0
    ensures Lex(cmp, s, u) <= 0
    decreases |s|
  {
    if s != [] && t != [] && u != [] {
      var x, y, z := s[0], t[0], u[0];
      assert cmp(x, y) == -cmp(y, x) && cmp(y, z) == -cmp(z, y) && cmp(x, z) == -cmp(z, x);
      assert cmp(x, z) <= 0;
      if cmp(x, z) == 0 {
        assert cmp(z, x) <= 0;
        assert cmp(y, x) <= 0 && cmp(z, y) <= 0;
        LexTransitive(cmp, s[1..], t[1..], u[1..]);
      }
    }
  }

  // ---------------------------------------------------------------------------------------
  // Numbers
  // ---------------------------------------------------------------------------------------

  predicate IsDigit(c: char) { '0' <= c <= '9' }

  predicate IsLetter(c: char) { 'a' <= c <= 'z' || 'A' <= c <= 'Z' }

  predicate AllDigits(s: string) { forall i :: 0 <= i < |s| ==> IsDigit(s[i]) }

  predicate AllLetters(s: string) { forall i :: 0 <= i < |s| ==> IsLetter(s[i]) }

  function Value(s: string): (n: int) {
    if s == [] then 0 else 10 * Value(s[..|s| - 1]) + (s[|s| - 1] as int - '0' as int)
  }

  /** The text is a decimal number that strconv.Atoi accepts. */
  predicate Numeric(s: string) { s != [] && AllDigits(s) && Value(s) <= MAX_INT }

  method ParseNumericToken(value: string) returns (n: int, ok: bool)
    ensures ok <==> Numeric(value)
    ensures n == if ok then Value(value) else 0
  {
    if value == "" {
      return 0, false;
    }
    for i := 0 to |value|
      invariant AllDigits(value[..i])
    {
      if !IsDigit(value[i]) {
        return 0, false;
      }
    }
    assert value[..|value|] == value;
    if Value(value) > MAX_INT {
      return 0, false;
    }
    return Value(value), true;
  }

  /** The leading digits of a text. */
  function DigitPrefix(s: string): (r: string)
    ensures |r| <= |s| && r == s[..|r|] && AllDigits(r) && (|r| < |s| ==> !IsDigit(s[|r|]))
  {
    if s == [] || !IsDigit(s[0]) then []
    else
      var rest := DigitPrefix(s[1..]);
      assert s[..|rest| + 1] == [s[0]] + rest;
      [s[0]] + rest
  }

  /** The number a part of the core stands for; one that is too large counts as zero. */
  function PartNumber(part: string): (n: int)
  {
    var digits := DigitPrefix(TrimSpace(part));
    if Numeric(digits) then Value(digits) else 0
  }

  /** strings.Split(s, "."). */
  function SplitDots(s: string): (parts: seq<string>)
    ensures parts != []
  {
    if s == [] then [[]]
    else if s[0] == '.' then [[]] + SplitDots(s[1..])
    else
      var rest := SplitDots(s[1..]);
      [[s[0]] + rest[0]] + rest[1..]
  }

  function PartNumbers(parts: seq<string>): (r: seq<int>) {
    seq(|parts|, i requires 0 <= i < |parts| => PartNumber(parts[i]))
  }

  function CoreNumbers(value: string): (r: seq<int>) { PartNumbers(SplitDots(TrimSpace(value))) }

  method LeadingDigits(part: string) returns (numPart: string)
    ensures numPart == DigitPrefix(part)
  {
    for idx := 0 to |part|
      invariant AllDigits(part[..idx])
    {
      if !IsDigit(part[idx]) {
        PrefixIsUnique(part, idx);
        return part[..idx];
      }
    }
    assert part[..|part|] == part;
    PrefixIsUnique(part, |part|);
    return part;
  }

  method ParseSemverNumbers(value: string) returns (result: seq<int>)
    ensures result == CoreNumbers(value)
  {
    var parts := SplitDots(TrimSpace(value));
    result := [];
    for k := 0 to |parts|
      invariant result == PartNumbers(parts)[..k]
    {
      var part := TrimSpace(parts[k]);
      var n := 0;
      if part != "" {
        var numPart := LeadingDigits(part);
        if numPart != "" && Value(numPart) <= MAX_INT {
          n := Value(numPart);
        }
      }
      assert n == PartNumber(parts[k]);
      result := result + [n];
    }
  }

  lemma {:induction false} PrefixIsUnique(s: string, n: nat)
    requires n <= |s| && AllDigits(s[..n]) && (n < |s| ==> !IsDigit(s[n]))
    ensures DigitPrefix(s) == s[..n]
  {
    if n > 0 {
      assert IsDigit(s[..n][0]);
      assert s[1..][..n - 1] == s[..n][1..];
      PrefixIsUnique(s[1..], n - 1);
    }
  }

  // ---------------------------------------------------------------------------------------
  // Splitting a tag
  // ---------------------------------------------------------------------------------------

  datatype Parts = Parts(core: seq<int>, suffix: string)

  function TrimPrefix(s: string, c: char): (r: string) {
    if s != [] && s[0] == c then s[1..] else s
  }

  /** strings.IndexAny(s, "-+"), or the length where there is none. */
  function Separator(s: string): (n: nat)
    ensures n <= |s|
  {
    if s == [] || s[0] == '-' || s[0] == '+' then 0 else 1 + Separator(s[1..])
  }

  function Stripped(tag: string): (v: string) {
    TrimPrefix(TrimPrefix(TrimSpace(tag), 'v'), 'V')
  }

  function SplitStripped(v: string): (r: Parts) {
    var n := Separator(v);
    if n < |v| then Parts(CoreNumbers(TrimSpace(v[..n])), TrimSpace(v[n + 1..])) else Parts(CoreNumbers(v), "")
  }

  function Split(tag: string): (r: Parts) { SplitStripped(Stripped(tag)) }

  method SplitSemverLike(tag: string) returns (core: seq<int>, suffix: string)
    ensures Split(tag) == Parts(core, suffix)
  {
    var v := Stripped(tag);
    var n := Separator(v);
    if n < |v| {
      core := ParseSemverNumbers(TrimSpace(v[..n]));
      suffix := TrimSpace(v[n + 1..]);
    } else {
      core := ParseSemverNumbers(v);
      suffix := "";
    }
  }

  // ---------------------------------------------------------------------------------------
  // Tokens of a suffix
  // ---------------------------------------------------------------------------------------

  datatype Kind = Digits | Letters | Other

  function KindOf(c: char): (k: Kind) { if IsDigit(c) then Digits else if IsLetter(c) then Letters else Other }

  predicate AllOf(k: Kind, s: string) { forall i :: 0 <= i < |s| ==> KindOf(s[i]) == k }

  /** How far the first kind of character reaches. */
  function RunLength(k: Kind, s: string): (n: nat)
    ensures n <= |s| && AllOf(k, s[..n]) && (n < |s| ==> KindOf(s[n]) != k)
  {
    if s == [] || KindOf(s[0]) != k then 0
    else
      var n := RunLength(k, s[1..]);
      assert s[..n + 1] == [s[0]] + s[1..][..n];
      n + 1
  }

  /** The maximal runs of digits and of letters. */
  function Tokens(s: string): (r: seq<string>) {
    if s == [] then []
    else if KindOf(s[0]).Other? then Tokens(s[1..])
    else
      var n := RunLength(KindOf(s[0]), s);
      [s[..n]] + Tokens(s[n..])
  }

  predicate IsToken(s: string) {
    s != [] && (AllDigits(s) || AllLetters(s))
  }

  /** Every token is a non-empty run of one kind, and together they are the characters of the suffix
      that are digits or letters, in order. */
  lemma {:induction false} TokensPartition(s: string)
    ensures forall x :: x in Tokens(s) ==> IsToken(x)
    ensures Concat(Tokens(s)) == Alphanumeric(s)
  {
    if s != [] {
      if KindOf(s[0]).Other? {
        TokensPartition(s[1..]);
      } else {
        var n := RunLength(KindOf(s[0]), s);
        TokensPartition(s[n..]);
        AlphanumericRun(KindOf(s[0]), s, n);
        assert Tokens(s)[1..] == Tokens(s[n..]);
      }
    }
  }

  function Concat(tokens: seq<string>): (s: string) {
    if tokens == [] then [] else tokens[0] + Concat(tokens[1..])
  }

  function Alphanumeric(s: string): (r: string) {
    if s == [] then [] else (if KindOf(s[0]).Other? then [] else [s[0]]) + Alphanumeric(s[1..])
  }

  lemma {:induction false} AlphanumericRun(k: Kind, s: string, n: nat)
    requires !k.Other? && n <= |s| && AllOf(k, s[..n])
    ensures Alphanumeric(s) == s[..n] + Alphanumeric(s[n..])
  {
    if n > 0 {
      assert KindOf(s[..n][0]) == k;
      assert s[1..][..n - 1] == s[..n][1..];
      AlphanumericRun(k, s[1..], n - 1);
      assert s[1..][n - 1..] == s[n..];
      assert s[..n] == [s[0]] + s[1..][..n - 1];
    }
  }

  lemma {:induction false} RunEnds(k: Kind, run: string, rest: string)
    requires AllOf(k, run) && (rest != [] ==> KindOf(rest[0]) != k)
    ensures RunLength(k, run + rest) == |run|
  {
    if run != [] {
      assert (run + rest)[1..] == run[1..] + rest;
      RunEnds(k, run[1..], rest);
    } else {
      assert run + rest == rest;
    }
  }

  /** A run before something of another kind is a token by itself. */
  lemma RunIsToken(k: Kind, run: string, rest: string)
    requires !k.Other? && run != [] && AllOf(k, run) && (rest != [] ==> KindOf(rest[0]) != k)
    ensures Tokens(run + rest) == [run] + Tokens(rest)
  {
    RunEnds(k, run, rest);
    assert KindOf((run + rest)[0]) == k;
  }

  /** The scan so far: tokens found, the run being collected, and what is left. */
  datatype Scan = Scan(result: seq<string>, kind: Kind, current: string, rest: string)

  predicate ScanOk(value: string, s: Scan) {
    && AllOf(s.kind, s.current) && (s.current == [] <==> s.kind.Other?)
    && Tokens(value) == s.result + Tokens(s.current + s.rest)
  }

  lemma FlushOk(value: string, s: Scan)
    requires ScanOk(value, s) && s.current != [] && (s.rest != [] ==> KindOf(s.rest[0]) != s.kind)
    ensures ScanOk(value, Scan(s.result + [s.current], Other, [], s.rest))
  {
    RunIsToken(s.kind, s.current, s.rest);
    assert [] + s.rest == s.rest;
  }

  lemma CollectOk(value: string, s: Scan)
    requires ScanOk(value, s) && s.rest != [] && !KindOf(s.rest[0]).Other?
    requires s.current == [] || KindOf(s.rest[0]) == s.kind
    ensures ScanOk(value, Scan(s.result, KindOf(s.rest[0]), s.current + [s.rest[0]], s.rest[1..]))
  {
    assert (s.current + [s.rest[0]]) + s.rest[1..] == s.current + s.rest;
  }

  lemma SkipOk(value: string, s: Scan)
    requires ScanOk(value, s) && s.rest != [] && KindOf(s.rest[0]).Other? && s.current == []
    ensures ScanOk(value, Scan(s.result, Other, [], s.rest[1..]))
  {
    assert s.current + s.rest == s.rest;
    assert [] + s.rest[1..] == s.rest[1..];
  }

  /** One turn of the scanning loop. */
  method ScanNext(value: string, s: Scan) returns (r: Scan)
    requires ScanOk(value, s) && s.rest != []
    ensures ScanOk(value, r) && r.rest == s.rest[1..]
  {
    var c := s.rest[0];
    r := s;
    if KindOf(c) != s.kind && s.current != [] {
      FlushOk(value, r);
      r := Scan(s.result + [s.current], Other, [], s.rest);
    }
    if KindOf(c).Other? {
      SkipOk(value, r);
      r := Scan(r.result, Other, [], r.rest[1..]);
    } else {
      CollectOk(value, r);
      r := Scan(r.result, KindOf(c), r.current + [c], r.rest[1..]);
    }
  }

  method Tokenize(text: string) returns (result: seq<string>)
    ensures result == Tokens(TrimSpace(text))
  {
    result := TokenizeTrimmed(TrimSpace(text));
  }

  method TokenizeTrimmed(value: string) returns (result: seq<string>)
    ensures result == Tokens(value)
  {
    var s := Scan([], Other, [], value);
    assert [] + value == value;
    while s.rest != []
      invariant ScanOk(value, s)
      decreases |s.rest|
    {
      s := ScanNext(value, s);
    }
    ScanEnds(value, s);
    result := s.result;
    if s.current != [] {
      result := result + [s.current];
    }
  }

  lemma ScanEnds(value: string, s: Scan)
    requires ScanOk(value, s) && s.rest == []
    ensures Tokens(value) == if s.current != [] then s.result + [s.current] else s.result
  {
    if s.current != [] {
      FlushOk(value, s);
    }
  }

  // ---------------------------------------------------------------------------------------
  // Comparing
  // ---------------------------------------------------------------------------------------

  function LowerChar(c: char): (r: char) { if 'A' <= c <= 'Z' then (c as int + 32) as char else c }

  /** strings.ToLower on digits and ASCII letters. */
  function Lower(s: string): (r: string) { seq(|s|, i requires 0 <= i < |s| => LowerChar(s[i])) }

  function TokenCompare(left: string, right: string): (r: int) {
    if Numeric(left) && Numeric(right) then IntCompare(Value(left), Value(right))
    else Lex(CharCompare, Lower(left), Lower(right))
  }

  method CompareToken(left: string, right: string) returns (r: int)
    ensures r == TokenCompare(left, right)
  {
    var leftNum, leftIsNum := ParseNumericToken(left);
    var rightNum, rightIsNum := ParseNumericToken(right);
    if leftIsNum && rightIsNum {
      return IntCompare(leftNum, rightNum);
    }
    return Lex(CharCompare, Lower(left), Lower(right));
  }

  method CompareTokens(ta: seq<string>, tb: seq<string>) returns (r: int)
    ensures r == Lex(TokenCompare, ta, tb)
  {
    var maxLen := if |tb| > |ta| then |tb| else |ta|;
    ghost var s, t := ta, tb;
    for i := 0 to maxLen
      invariant i <= |ta| && i <= |tb| && s == ta[i..] && t == tb[i..]
      invariant Lex(TokenCompare, ta, tb) == Lex(TokenCompare, s, t)
    {
      if i >= |ta| {
        return -1;
      }
      if i >= |tb| {
        return 1;
      }
      r := CompareToken(ta[i], tb[i]);
      if r != 0 {
        return;
      }
      s, t := s[1..], t[1..];
    }
    return 0;
  }

  method CompareSuffix(a: string, b: string) returns (r: int)
    ensures r == Lex(TokenCompare, Tokens(TrimSpace(a)), Tokens(TrimSpace(b)))
  {
    var ta := Tokenize(a);
    var tb := Tokenize(b);
    r := CompareTokens(ta, tb);
  }

  function Head(p: seq<int>): (n: int) { if p == [] then 0 else p[0] }

  function Tail(p: seq<int>): (r: seq<int>) { if p == [] then [] else p[1..] }

  /** Number by number; missing numbers are zero. */
  function CoreCompare(p: seq<int>, q: seq<int>): (r: int)
    decreases |p| + |q|
  {
    if p == [] && q == [] then 0
    else if Head(p) != Head(q) then IntCompare(Head(p), Head(q))
    else CoreCompare(Tail(p), Tail(q))
  }

  /** Number `i` of a core; missing numbers are zero. */
  function At(p: seq<int>, i: nat): (n: int) { if i < |p| then p[i] else 0 }

  /** The cores first differ at number `i`. */
  ghost predicate FirstDiffer(p: seq<int>, q: seq<int>, i: nat) {
    At(p, i) != At(q, i) && forall j: nat :: j < i ==> At(p, j) == At(q, j)
  }

  /** Where two cores first differ, the smaller number decides. */
  lemma {:induction false} FirstDifferenceDecides(p: seq<int>, q: seq<int>, i: nat)
    requires FirstDiffer(p, q, i)
    ensures CoreCompare(p, q) == if At(p, i) < At(q, i) then -1 else 1
    decreases i
  {
    assert At(p, 0) == Head(p) && At(q, 0) == Head(q);
    if i > 0 {
      assert At(p, 0) == At(q, 0);
      forall j: nat ensures At(Tail(p), j) == At(p, j + 1) && At(Tail(q), j) == At(q, j + 1) {}
      FirstDifferenceDecides(Tail(p), Tail(q), i - 1);
    }
  }

  /** Everything the comparison looks at in a tag. */
  datatype Parsed = Parsed(core: seq<int>, suffix: string, tokens: seq<string>)

  function Parse(tag: string): (r: Parsed) {
    var p := Split(tag);
    Parsed(p.core, p.suffix, Tokens(TrimSpace(p.suffix)))
  }

  function ParsedCompare(p: Parsed, q: Parsed): (r: int) {
    if CoreCompare(p.core, q.core) != 0 then CoreCompare(p.core, q.core)
    else if p.suffix == q.suffix then 0
    else if p.suffix == "" then 1
    else if q.suffix == "" then -1
    else Lex(TokenCompare, p.tokens, q.tokens)
  }

  function TagCompare(a: string, b: string): (r: int) { ParsedCompare(Parse(a), Parse(b)) }

  method CompareCores(pa: seq<int>, pb: seq<int>) returns (r: int)
    ensures r == CoreCompare(pa, pb)
  {
    var maxLen := if |pb| > |pa| then |pb| else |pa|;
    ghost var p, q := pa, pb;
    for i := 0 to maxLen
      invariant p == (if i <= |pa| then pa[i..] else []) && q == (if i <= |pb| then pb[i..] else [])
      invariant CoreCompare(pa, pb) == CoreCompare(p, q)
    {
      var va := if i < |pa| then pa[i] else 0;
      var vb := if i < |pb| then pb[i] else 0;
      if va < vb {
        return -1;
      }
      if va > vb {
        return 1;
      }
      p, q := Tail(p), Tail(q);
    }
    return 0;
  }

  method CompareSemverLikeTags(a: string, b: string) returns (r: int)
    ensures r == TagCompare(a, b)
    ensures forall i: nat :: FirstDiffer(Parse(a).core, Parse(b).core, i) ==>
      r == if At(Parse(a).core, i) < At(Parse(b).core, i) then -1 else 1
  {
    forall i: nat | FirstDiffer(Parse(a).core, Parse(b).core, i)
      ensures TagCompare(a, b) == if At(Parse(a).core, i) < At(Parse(b).core, i) then -1 else 1
    {
      FirstDifferenceDecides(Parse(a).core, Parse(b).core, i);
    }
    var pa, sa := SplitSemverLike(a);
    var pb, sb := SplitSemverLike(b);
    r := CompareCores(pa, pb);
    if r != 0 {
      return;
    }
    if sa == sb {
      return 0;
    }
    if sa == "" {
      return 1;
    }
    if sb == "" {
      return -1;
    }
    r := CompareSuffix(sa, sb);
  }

  // ---------------------------------------------------------------------------------------
  // The order
  // ---------------------------------------------------------------------------------------

  lemma TokenCompareSigned()
    ensures Signed(TokenCompare)
  {
    forall x, y ensures -1 <= TokenCompare(x, y) <= 1 && TokenCompare(x, y) == -TokenCompare(y, x) {
      LexSigned(CharCompare, Lower(x), Lower(y));
    }
  }

  lemma {:induction false} CoreSigned(p: seq<int>, q: seq<int>)
    ensures -1 <= CoreCompare(p, q) <= 1 && CoreCompare(p, q) == -CoreCompare(q, p)
    decreases |p| + |q|
  {
    if p != [] || q != [] {
      CoreSigned(Tail(p), Tail(q));
    }
  }

  lemma {:induction false} CoreTransitive(p: seq<int>, q: seq<int>, r: seq<int>)
    requires CoreCompare(p, q) <= 0 && CoreCompare(q, r) <= 0
    ensures CoreCompare(p, r) <= 0
    ensures CoreCompare(p, r) == 0 ==> CoreCompare(p, q) == 0 && CoreCompare(q, r) == 0
    decreases |p| + |q| + |r|
  {
    if p != [] || q != [] || r != [] {
      if Head(p) == Head(q) == Head(r) {
        CoreTransitive(Tail(p), Tail(q), Tail(r));
      }
    }
  }

  lemma ParsedSigned(p: Parsed, q: Parsed)
    ensures -1 <= ParsedCompare(p, q) <= 1 && ParsedCompare(p, q) == -ParsedCompare(q, p)
  {
    TokenCompareSigned();
    CoreSigned(p.core, q.core);
    LexSigned(TokenCompare, p.tokens, q.tokens);
  }

  /** Swapping the tags flips the sign, for all tags. */
  lemma TagCompareSigned(a: string, b: string)
    ensures -1 <= TagCompare(a, b) <= 1 && TagCompare(a, b) == -TagCompare(b, a)
  {
    ParsedSigned(Parse(a), Parse(b));
  }

  /** Same core, one suffix missing. */
  predicate ReleaseOf(p: Parsed, q: Parsed) {
    CoreCompare(p.core, q.core) == 0 && p.suffix == "" && q.suffix != ""
  }

  lemma ReleaseAbove(p: Parsed, q: Parsed)
    requires ReleaseOf(p, q)
    ensures ParsedCompare(p, q) == 1 && ParsedCompare(q, p) == -1
  {
    ParsedSigned(p, q);
  }

  /** A tag without suffix ranks above every tag with one and an equal core. */
  lemma ReleaseRanksAbove(a: string, b: string)
    requires ReleaseOf(Parse(a), Parse(b))
    ensures TagCompare(a, b) == 1 && TagCompare(b, a) == -1
  {
    ReleaseAbove(Parse(a), Parse(b));
  }

  /** What a token stands for: a number, or a word without case. Numbers come first. */
  datatype Key = Number(n: int) | Word(text: string)

  function KeyOf(token: string): (k: Key) {
    if Numeric(token) then Number(Value(token)) else Word(Lower(token))
  }

  function KeyCompare(k: Key, l: Key): (r: int) {
    match (k, l)
    case (Number(m), Number(n)) => IntCompare(m, n)
    case (Number(_), Word(_)) => -1
    case (Word(_), Number(_)) => 1
    case (Word(v), Word(w)) => Lex(CharCompare, v, w)
  }

  function Keys(tokens: seq<string>): (r: seq<Key>) {
    if tokens == [] then [] else [KeyOf(tokens[0])] + Keys(tokens[1..])
  }

  /** Every digit run of the suffix fits 64 bits. */
  predicate Fitting(tokens: seq<string>) {
    forall i :: 0 <= i < |tokens| ==> IsToken(tokens[i]) && (AllDigits(tokens[i]) ==> Value(tokens[i]) <= MAX_INT)
  }

  lemma TokenIsKey(x: string, y: string)
    requires IsToken(x) && (AllDigits(x) ==> Numeric(x)) && IsToken(y) && (AllDigits(y) ==> Numeric(y))
    ensures TokenCompare(x, y) == KeyCompare(KeyOf(x), KeyOf(y))
  {
    if Numeric(x) != Numeric(y) {
      assert AllDigits(x) ==> IsDigit(Lower(x)[0]);
      assert AllDigits(y) ==> IsDigit(Lower(y)[0]);
      assert AllLetters(x) ==> 'a' <= Lower(x)[0] <= 'z';
      assert AllLetters(y) ==> 'a' <= Lower(y)[0] <= 'z';
    }
  }

  lemma {:induction false} TokensAreKeys(s: seq<string>, t: seq<string>)
    requires Fitting(s) && Fitting(t)
    ensures Lex(TokenCompare, s, t) == Lex(KeyCompare, Keys(s), Keys(t))
    decreases |s|
  {
    if s != [] && t != [] {
      TokenIsKey(s[0], t[0]);
      TokensAreKeys(s[1..], t[1..]);
    }
  }

  lemma KeyCompareLaws()
    ensures Signed(KeyCompare) && Transitive(KeyCompare)
  {
    forall k, l ensures -1 <= KeyCompare(k, l) <= 1 && KeyCompare(k, l) == -KeyCompare(l, k) {
      if k.Word? && l.Word? {
        LexSigned(CharCompare, k.text, l.text);
      }
    }
    forall k, l, m | KeyCompare(k, l) <= 0 && KeyCompare(l, m) <= 0 ensures KeyCompare(k, m) <= 0 {
      if k.Word? && l.Word? && m.Word? {
        LexTransitive(CharCompare, k.text, l.text, m.text);
      }
    }
  }

  /** Every digit run of the tag's suffix fits 64 bits. */
  predicate FittingTag(tag: string) { NumbersFit(Parse(tag).tokens) }

  predicate NumbersFit(tokens: seq<string>) {
    forall x :: x in tokens && AllDigits(x) ==> Value(x) <= MAX_INT
  }

  lemma SuffixTransitive(s: seq<string>, t: seq<string>, u: seq<string>)
    requires Fitting(s) && Fitting(t) && Fitting(u)
    requires Lex(TokenCompare, s, t) <= 0 && Lex(TokenCompare, t, u) <= 0
    ensures Lex(TokenCompare, s, u) <= 0
  {
    TokensAreKeys(s, t);
    TokensAreKeys(t, u);
    TokensAreKeys(s, u);
    KeyCompareLaws();
    LexTransitive(KeyCompare, Keys(s), Keys(t), Keys(u));
  }

  lemma ParsedTransitive(p: Parsed, q: Parsed, r: Parsed)
    requires Fitting(p.tokens) && Fitting(q.tokens) && Fitting(r.tokens)
    requires (p.suffix == q.suffix ==> p.tokens == q.tokens) && (q.suffix == r.suffix ==> q.tokens == r.tokens)
    requires ParsedCompare(p, q) <= 0 && ParsedCompare(q, r) <= 0
    ensures ParsedCompare(p, r) <= 0
  {
    CoreTransitive(p.core, q.core, r.core);
    if CoreCompare(p.core, r.core) == 0 && p.suffix != "" && q.suffix != "" && r.suffix != "" {
      TokenCompareSigned();
      LexSigned(TokenCompare, p.tokens, p.tokens);
      LexSigned(TokenCompare, q.tokens, q.tokens);
      SuffixTransitive(p.tokens, q.tokens, r.tokens);
    }
  }

  lemma TokensFitting(s: string)
    requires NumbersFit(Tokens(s))
    ensures Fitting(Tokens(s))
  {
    TokensPartition(s);
  }

  lemma ParsedFitting(tag: string)
    requires FittingTag(tag)
    ensures Fitting(Parse(tag).tokens)
  {
    TokensFitting(TrimSpace(Split(tag).suffix));
  }

  /** A total preorder on the tags whose suffix numbers fit 64 bits. */
  lemma TagCompareTransitive(a: string, b: string, c: string)
    requires FittingTag(a) && FittingTag(b) && FittingTag(c)
    requires TagCompare(a, b) <= 0 && TagCompare(b, c) <= 0
    ensures TagCompare(a, c) <= 0
  {
    ParsedFitting(a);
    ParsedFitting(b);
    ParsedFitting(c);
    ParsedTransitive(Parse(a), Parse(b), Parse(c));
  }

  // ---------------------------------------------------------------------------------------
  // Suffix numbers that do not fit
  // ---------------------------------------------------------------------------------------

  function Power(n: nat): (r: int)
    ensures r > 0
  {
    if n == 0 then 1 else 10 * Power(n - 1)
  }

  function Zeros(n: nat): (s: string)
    ensures |s| == n && forall i :: 0 <= i < n ==> s[i] == '0'
  {
    seq(n, _ => '0')
  }

  lemma {:induction false} PowerValue(n: nat)
    ensures Value(['1'] + Zeros(n)) == Power(n)
  {
    var s := ['1'] + Zeros(n);
    if n > 0 {
      assert s[..|s| - 1] == ['1'] + Zeros(n - 1);
      PowerValue(n - 1);
    } else {
      assert s[..0] == [];
    }
  }

  lemma {:induction false} PowerGrows(n: nat)
    requires n >= 19
    ensures Power(n) > MAX_INT
  {
    if n > 19 {
      PowerGrows(n - 1);
    } else {
      assert Power(10) == 10_000_000_000;
      assert Power(19) == 1_000_000_000 * Power(10);
    }
  }

  lemma DigitsUntrimmed(s: string)
    requires s != [] && AllDigits(s)
    ensures TrimSpace(s) == s
  {
    assert IsDigit(s[0]) && IsDigit(s[|s| - 1]);
  }

  /** The tag 1-`s`. */
  function NumberedTag(s: string): (tag: string) { ['1', '-'] + s }

  lemma NumberedTagParses(s: string)
    requires s != [] && AllDigits(s)
    ensures Parse(NumberedTag(s)) == Parsed([1], s, [s])
  {
    var tag := NumberedTag(s);
    assert TrimSpace(tag) == tag by {
      assert IsDigit(s[|s| - 1]);
    }
    assert Separator(tag[1..]) == 0;
    assert Separator(tag) == 1 && tag[..1] == ['1'] && tag[2..] == s;
    assert CoreNumbers(TrimSpace(['1'])) == [1] by {
      OneParses();
    }
    DigitsUntrimmed(s);
    forall i | 0 <= i < |s| ensures KindOf(s[i]).Digits? {}
    RunIsToken(Digits, s, []);
    assert s + [] == s;
  }

  lemma OneParses()
    ensures TrimSpace(['1']) == ['1'] && CoreNumbers(['1']) == [1]
  {
    DigitsUntrimmed(['1']);
    var one: string := ['1'];
    var rest := SplitDots(one[1..]);
    assert rest == [[]];
    assert [one[0]] + rest[0] == one && rest[1..] == [];
    assert SplitDots(one) == [one];
    PrefixIsUnique(['1'], 1);
    assert Value(['1']) == 1;
  }

  lemma NumberedCompare(s: string, t: string)
    requires s != t && s != [] && t != [] && AllDigits(s) && AllDigits(t) && TokenCompare(s, t) != 0
    ensures TagCompare(NumberedTag(s), NumberedTag(t)) == TokenCompare(s, t)
  {
    NumberedTagParses(s);
    NumberedTagParses(t);
    assert CoreCompare([1], [1]) == 0;
  }

  lemma OverflowTokens(n: nat)
    requires n >= 19
    ensures TokenCompare("9", "10") == -1
    ensures TokenCompare("10", ['1'] + Zeros(n)) == -1
    ensures TokenCompare(['1'] + Zeros(n), "9") == -1
  {
    var big := ['1'] + Zeros(n);
    PowerValue(n);
    PowerGrows(n);
    var ten: string := "10";
    assert ten[..1] == ['1'] && Value(['1']) == 1;
    assert Lower(big)[0] == '1' && Lower("9")[0] == '9';
    var rest, zero := Lower(big)[1..], Lower(ten)[1..];
    assert Lower(ten)[0] == '1' && zero == ['0'] && rest[0] == '0' && rest[1] == '0';
    assert Lex(CharCompare, zero[1..], rest[1..]) == -1;
    assert Lex(CharCompare, zero, rest) == -1;
  }

  /** Beyond 64 bits the order is a cycle: 1-9 < 1-10 < 1-1000...0 < 1-9. */
  lemma OverflowCycle(n: nat)
    requires n >= 19
    ensures TagCompare(NumberedTag("9"), NumberedTag("10")) == -1
    ensures TagCompare(NumberedTag("10"), NumberedTag(['1'] + Zeros(n))) == -1
    ensures TagCompare(NumberedTag(['1'] + Zeros(n)), NumberedTag("9")) == -1
  {
    OverflowTokens(n);
    NumberedCompare("9", "10");
    NumberedCompare("10", ['1'] + Zeros(n));
    NumberedCompare(['1'] + Zeros(n), "9");
  }

  // ---------------------------------------------------------------------------------------
  // Exactly how far the order reaches
  // ---------------------------------------------------------------------------------------

  /** The least number that does not fit, 9223372036854775808, in two halves. */
  const HIGH: string := "9223372036"
  const LOW: string := "854775808"

  lemma {:induction false} ValueJoins(s: string, t: string)
    ensures Value(s + t) == Value(s) * Power(|t|) + Value(t)
  {
    if t == [] {
      assert s + t == s;
    } else {
      var last := |t| - 1;
      assert (s + t)[..|s + t| - 1] == s + t[..last];
      ValueJoins(s, t[..last]);
      Reassociate(Value(s), Power(last));
    }
  }

  lemma Reassociate(a: int, b: int)
    ensures 10 * (a * b) == a * (10 * b)
  {
  }

  lemma SmallValues()
    ensures Value("93") == 93 && Value("100") == 100
  {
    assert "93"[..1] == "9" && Value("9") == 9;
    assert "100"[..2] == "10" && "10"[..1] == "1" && Value("1") == 1 && Value("10") == 10;
  }

  lemma HighValue()
    ensures Value(HIGH) == 9_223_372_036
  {
    assert HIGH[..9][..8] == HIGH[..8] && HIGH[..8][..7] == HIGH[..7] && HIGH[..7][..6] == HIGH[..6];
    assert HIGH[..6][..5] == HIGH[..5] && HIGH[..5][..4] == HIGH[..4] && HIGH[..4][..3] == HIGH[..3];
    assert HIGH[..3][..2] == HIGH[..2] && HIGH[..2][..1] == HIGH[..1] && HIGH[..1][..0] == [];
    assert Value(HIGH[..1]) == 9 && Value(HIGH[..2]) == 92 && Value(HIGH[..3]) == 922 && Value(HIGH[..4]) == 9_223;
    assert Value(HIGH[..5]) == 92_233 && Value(HIGH[..6]) == 922_337 && Value(HIGH[..7]) == 9_223_372;
    assert Value(HIGH[..8]) == 92_233_720 && Value(HIGH[..9]) == 922_337_203;
  }

  lemma LowValue()
    ensures Value(LOW) == 854_775_808
  {
    assert LOW[..8][..7] == LOW[..7] && LOW[..7][..6] == LOW[..6] && LOW[..6][..5] == LOW[..5];
    assert LOW[..5][..4] == LOW[..4] && LOW[..4][..3] == LOW[..3] && LOW[..3][..2] == LOW[..2];
    assert LOW[..2][..1] == LOW[..1] && LOW[..1][..0] == [];
    assert Value(LOW[..1]) == 8 && Value(LOW[..2]) == 85 && Value(LOW[..3]) == 854 && Value(LOW[..4]) == 8_547;
    assert Value(LOW[..5]) == 85_477 && Value(LOW[..6]) == 854_775 && Value(LOW[..7]) == 8_547_758;
    assert Value(LOW[..8]) == 85_477_580;
  }

  lemma LeastOverflow()
    ensures Value(HIGH + LOW) == MAX_INT + 1
  {
    ValueJoins(HIGH, LOW);
    HighValue();
    LowValue();
    assert Power(9) == 1_000_000_000;
  }

  lemma LeastOverflowTokens()
    ensures TokenCompare("93", "100") == -1
    ensures TokenCompare("100", HIGH + LOW) == -1
    ensures TokenCompare(HIGH + LOW, "93") == -1
  {
    SmallValues();
    LeastOverflow();
    var big: string := HIGH + LOW;
    assert big[0] == '9' && big[1] == '2';
    assert Lower(big)[0] == '9' && Lower("93")[0] == '9' && Lower("100")[0] == '1';
    var x, y := Lower(big)[1..], Lower("93")[1..];
    assert x[0] == '2' && y[0] == '3';
    assert Lex(CharCompare, x, y) == -1;
  }

  /** The tag has suffix numbers up to `n` only. */
  predicate NumbersUpTo(tag: string, n: int) {
    TokensUpTo(Parse(tag).tokens, n)
  }

  predicate TokensUpTo(tokens: seq<string>, n: int) {
    forall x :: x in tokens && AllDigits(x) ==> Value(x) <= n
  }

  predicate AllUpTo(a: string, b: string, c: string, n: int) {
    NumbersUpTo(a, n) && NumbersUpTo(b, n) && NumbersUpTo(c, n)
  }

  ghost predicate TransitiveUpTo(n: int) {
    forall a, b, c :: AllUpTo(a, b, c, n) && TagCompare(a, b) <= 0 && TagCompare(b, c) <= 0 ==> TagCompare(a, c) <= 0
  }

  lemma NumberedUpTo(s: string, n: int)
    requires s != [] && AllDigits(s) && Value(s) <= n
    ensures NumbersUpTo(NumberedTag(s), n)
  {
    NumberedTagParses(s);
  }

  /** Three different numbers, each before the next. */
  predicate NumberCycle(x: string, y: string, z: string) {
    && x != [] && y != [] && z != [] && AllDigits(x) && AllDigits(y) && AllDigits(z)
    && x != y && y != z && z != x
    && TokenCompare(x, y) == -1 && TokenCompare(y, z) == -1 && TokenCompare(z, x) == -1
  }

  lemma TagsCycle(x: string, y: string, z: string)
    requires NumberCycle(x, y, z)
    ensures TagCompare(NumberedTag(x), NumberedTag(y)) == -1
    ensures TagCompare(NumberedTag(y), NumberedTag(z)) == -1
    ensures TagCompare(NumberedTag(z), NumberedTag(x)) == -1
  {
    NumberedCompare(x, y);
    NumberedCompare(y, z);
    NumberedCompare(z, x);
  }

  /** The cycle 1-93 < 1-100 < 1-9223372036854775808 < 1-93, at the first number that does not fit. */
  lemma LeastOverflowCycle()
    ensures NumberCycle("93", "100", HIGH + LOW)
    ensures Value("93") == 93 && Value("100") == 100 && Value(HIGH + LOW) == MAX_INT + 1
  {
    LeastOverflowTokens();
    SmallValues();
    LeastOverflow();
  }

  lemma UpToFits(tag: string, n: int)
    requires NumbersUpTo(tag, n) && n <= MAX_INT
    ensures FittingTag(tag)
  {
    TokensFit(Parse(tag).tokens, n);
  }

  lemma TokensFit(tokens: seq<string>, n: int)
    requires TokensUpTo(tokens, n) && n <= MAX_INT
    ensures NumbersFit(tokens)
  {
  }

  /** The order is transitive on all tags with suffix numbers up to `n`, if and only if `n` fits. */
  lemma TransitiveExactly(n: int)
    ensures TransitiveUpTo(n) <==> n <= MAX_INT
  {
    if n <= MAX_INT {
      forall a, b, c | AllUpTo(a, b, c, n) && TagCompare(a, b) <= 0 && TagCompare(b, c) <= 0
        ensures TagCompare(a, c) <= 0
      {
        UpToFits(a, n);
        UpToFits(b, n);
        UpToFits(c, n);
        TagCompareTransitive(a, b, c);
      }
    } else {
      NotTransitive(n);
    }
  }

  lemma CycleBreaks(x: string, y: string, z: string, n: int)
    requires NumberCycle(x, y, z) && Value(x) <= n && Value(y) <= n && Value(z) <= n
    ensures !TransitiveUpTo(n)
  {
    var a, b, c := NumberedTag(x), NumberedTag(y), NumberedTag(z);
    NumberedUpTo(x, n);
    NumberedUpTo(y, n);
    NumberedUpTo(z, n);
    TagsCycle(x, y, z);
    TagCompareSigned(a, c);
    assert AllUpTo(a, b, c, n);
  }

  lemma NotTransitive(n: int)
    requires n > MAX_INT
    ensures !TransitiveUpTo(n)
  {
    LeastOverflowCycle();
    CycleBreaks("93", "100", HIGH + LOW, n);
  }
}
