/** Tags as releases are named: decimal numbers joined by dots, with or without a leading v, and whatever
    suffix after a '-' or a '+'. */
module ReleaseTags {
  import opened Text
  import opened VersionOrder

  predicate IsPart(s: string) { s != [] && AllDigits(s) && Value(s) <= MAX_INT }

  predicate IsCore(parts: seq<string>) { parts != [] && forall s :: s in parts ==> IsPart(s) }

  function Dotted(parts: seq<string>): (s: string)
    requires parts != []
  {
    if |parts| == 1 then parts[0] else parts[0] + ['.'] + Dotted(parts[1..])
  }

  function Values(parts: seq<string>): (r: seq<int>) {
    if parts == [] then [] else [Value(parts[0])] + Values(parts[1..])
  }

  predicate IsPrefix(s: string) { s == [] || s == ['v'] || s == ['V'] }

  predicate IsSuffix(s: string) { s == [] || s[0] == '-' || s[0] == '+' }

  function ReleaseTag(prefix: string, parts: seq<string>, suffix: string): (tag: string)
    requires parts != []
  {
    prefix + Dotted(parts) + suffix
  }

  /** Digits and dots, a digit first and last. */
  predicate Plain(s: string) {
    && s != [] && IsDigit(s[0]) && IsDigit(s[|s| - 1])
    && forall i :: 0 <= i < |s| ==> IsDigit(s[i]) || s[i] == '.'
  }

  lemma {:induction false} DottedIsPlain(parts: seq<string>)
    requires IsCore(parts)
    ensures Plain(Dotted(parts))
  {
    assert parts[0] in parts;
    if |parts| > 1 {
      DottedIsPlain(parts[1..]);
    }
  }

  // ---------------------------------------------------------------------------------------
  // Trimming and splitting
  // ---------------------------------------------------------------------------------------

  lemma {:induction false} TrimRightKeeps(head: string, rest: string)
    requires head != [] && !IsSpace(head[|head| - 1])
    ensures TrimRight(head + rest) == head + TrimRight(rest)
    decreases |rest|
  {
    if rest == [] {
      assert head + rest == head;
    } else {
      var last := |rest| - 1;
      assert (head + rest)[..|head + rest| - 1] == head + rest[..last];
      if IsSpace(rest[last]) {
        TrimRightKeeps(head, rest[..last]);
      }
    }
  }

  lemma {:induction false} TrimRightSuffix(s: string)
    requires IsSuffix(s)
    ensures IsSuffix(TrimRight(s)) && (TrimRight(s) == [] <==> s == [])
  {
    if s != [] {
      assert s == [s[0]] + s[1..];
      TrimRightKeeps([s[0]], s[1..]);
    }
  }

  lemma PlainUntrimmed(s: string)
    requires Plain(s)
    ensures TrimSpace(s) == s
  {
  }

  lemma {:induction false} SeparatorAfter(s: string, rest: string)
    requires (forall i :: 0 <= i < |s| ==> IsDigit(s[i]) || s[i] == '.') && IsSuffix(rest)
    ensures Separator(s + rest) == |s|
  {
    if s != [] {
      assert (s + rest)[1..] == s[1..] + rest;
      SeparatorAfter(s[1..], rest);
    } else {
      assert s + rest == rest;
    }
  }

  lemma {:induction false} SplitDigits(s: string, rest: string)
    requires AllDigits(s) && (rest == [] || rest[0] == '.')
    ensures SplitDots(s + rest) == [s] + if rest == [] then [] else SplitDots(rest[1..])
  {
    if s == [] {
      assert s + rest == rest;
    } else {
      assert (s + rest)[1..] == s[1..] + rest;
      SplitDigits(s[1..], rest);
      assert [s[0]] + s[1..] == s;
    }
  }

  lemma {:induction false} SplitDotted(parts: seq<string>)
    requires IsCore(parts)
    ensures SplitDots(Dotted(parts)) == parts
  {
    assert parts[0] in parts;
    if |parts| == 1 {
      SplitDigits(parts[0], []);
      assert parts[0] + [] == parts[0] && parts == [parts[0]];
    } else {
      var rest := ['.'] + Dotted(parts[1..]);
      SplitDotted(parts[1..]);
      SplitDigits(parts[0], rest);
      assert parts[0] + rest == Dotted(parts) && rest[1..] == Dotted(parts[1..]);
      assert [parts[0]] + parts[1..] == parts;
    }
  }

  lemma PartIsNumber(s: string)
    requires IsPart(s)
    ensures PartNumber(s) == Value(s)
  {
    DigitsUntrimmed(s);
    assert s[..|s|] == s;
    PrefixIsUnique(s, |s|);
  }

  lemma {:induction false} ValuesAt(parts: seq<string>, i: nat)
    requires i < |parts|
    ensures |Values(parts)| == |parts| && Values(parts)[i] == Value(parts[i])
  {
    if |parts| > 1 {
      ValuesAt(parts[1..], if i > 0 then i - 1 else 0);
    }
  }

  lemma NumbersOfParts(parts: seq<string>)
    requires IsCore(parts)
    ensures PartNumbers(parts) == Values(parts)
  {
    ValuesAt(parts, 0);
    forall i | 0 <= i < |parts| ensures PartNumbers(parts)[i] == Values(parts)[i] {
      assert parts[i] in parts;
      PartIsNumber(parts[i]);
      ValuesAt(parts, i);
    }
  }

  lemma CoreOfDotted(parts: seq<string>)
    requires IsCore(parts)
    ensures CoreNumbers(Dotted(parts)) == Values(parts)
  {
    DottedIsPlain(parts);
    PlainUntrimmed(Dotted(parts));
    SplitDotted(parts);
    NumbersOfParts(parts);
  }

  lemma TrimAfter(head: string, suffix: string)
    requires head != [] && !IsSpace(head[0]) && !IsSpace(head[|head| - 1])
    ensures TrimSpace(head + suffix) == head + TrimRight(suffix)
  {
    assert (head + suffix)[0] == head[0];
    assert TrimLeft(head + suffix) == head + suffix;
    TrimRightKeeps(head, suffix);
  }

  lemma HeadEnds(prefix: string, core: string)
    requires IsPrefix(prefix) && Plain(core)
    ensures var head := prefix + core; head != [] && !IsSpace(head[0]) && !IsSpace(head[|head| - 1])
  {
    var head := prefix + core;
    assert head[|head| - 1] == core[|core| - 1];
  }

  lemma Regroup(a: string, b: string, c: string)
    ensures a + b + c == a + (b + c)
  {
  }

  lemma PrefixStripped(prefix: string, body: string)
    requires IsPrefix(prefix) && body != [] && IsDigit(body[0])
    ensures TrimPrefix(TrimPrefix(prefix + body, 'v'), 'V') == body
  {
    if prefix == [] {
      assert prefix + body == body;
    } else {
      assert (prefix + body)[1..] == body;
    }
  }

  lemma StrippedTag(prefix: string, core: string, suffix: string)
    requires IsPrefix(prefix) && Plain(core)
    ensures Stripped(prefix + core + suffix) == core + TrimRight(suffix)
  {
    HeadEnds(prefix, core);
    TrimAfter(prefix + core, suffix);
    Regroup(prefix, core, TrimRight(suffix));
    PrefixStripped(prefix, core + TrimRight(suffix));
  }

  /** Such a tag has the numbers it is written with, whatever its prefix and suffix. */
  lemma ReleaseTagParses(prefix: string, parts: seq<string>, suffix: string)
    requires IsPrefix(prefix) && IsCore(parts) && IsSuffix(suffix)
    ensures Parse(ReleaseTag(prefix, parts, suffix)).core == Values(parts)
  {
    var core, rest := Dotted(parts), TrimRight(suffix);
    DottedIsPlain(parts);
    StrippedTag(prefix, core, suffix);
    TrimRightSuffix(suffix);
    CoreOfStripped(parts, rest);
  }

  lemma CoreOfStripped(parts: seq<string>, rest: string)
    requires IsCore(parts) && IsSuffix(rest)
    ensures SplitStripped(Dotted(parts) + rest).core == Values(parts)
  {
    var core := Dotted(parts);
    DottedIsPlain(parts);
    SeparatorAfter(core, rest);
    PlainUntrimmed(core);
    CoreOfDotted(parts);
    if rest == [] {
      assert core + rest == core;
    } else {
      assert (core + rest)[..|core|] == core;
    }
  }

  /** Releases are ordered by the first number in which they differ, missing numbers being zero, whatever
      their prefixes and suffixes: v1.2.0 comes before v1.3.0, and 1.9 before 1.10-rc1. */
  lemma ReleasesOrdered(
      prefix: string, parts: seq<string>, suffix: string, prefix': string, parts': seq<string>, suffix': string, i: nat)
    requires IsPrefix(prefix) && IsCore(parts) && IsSuffix(suffix)
    requires IsPrefix(prefix') && IsCore(parts') && IsSuffix(suffix')
    requires FirstDiffer(Values(parts), Values(parts'), i)
    ensures TagCompare(ReleaseTag(prefix, parts, suffix), ReleaseTag(prefix', parts', suffix')) ==
      if At(Values(parts), i) < At(Values(parts'), i) then -1 else 1
  {
    ReleaseTagParses(prefix, parts, suffix);
    ReleaseTagParses(prefix', parts', suffix');
    CoresDecide(Parse(ReleaseTag(prefix, parts, suffix)), Parse(ReleaseTag(prefix', parts', suffix')), i);
  }

  lemma CoresDecide(p: Parsed, q: Parsed, i: nat)
    requires FirstDiffer(p.core, q.core, i)
    ensures ParsedCompare(p, q) == if At(p.core, i) < At(q.core, i) then -1 else 1
  {
    FirstDifferenceDecides(p.core, q.core, i);
  }
}
