/** The in-memory log: a ring of 500 slots that also keeps the bytes of its messages under a limit. */
module LogRing {
  newtype Byte = b: int | 0 <= b < 256

  const MAX_ENTRIES: nat := 500
  const MAX_BYTES: nat := 512 * 1024
  const MAX_ENTRY_BYTES: nat := 16 * 1024

  /** "...[truncated]" */
  const SUFFIX: seq<Byte> := [46, 46, 46, 91, 116, 114, 117, 110, 99, 97, 116, 101, 100, 93]

  datatype Entry = Entry(time: nat, level: int, log: seq<Byte>)

  const BLANK: Entry := Entry(0, 0, [])

  function Bytes(s: seq<Entry>): (n: nat) {
    if s == [] then 0 else |s[0].log| + Bytes(s[1..])
  }

  lemma {:induction false} BytesAppend(s: seq<Entry>, e: Entry)
    ensures Bytes(s + [e]) == Bytes(s) + |e.log|
  {
    if s != [] {
      assert (s + [e])[1..] == s[1..] + [e];
      BytesAppend(s[1..], e);
    }
  }

  // ---------------------------------------------------------------------------------------
  // Which entries are kept
  // ---------------------------------------------------------------------------------------

  /** Within both limits; the newest entry stays even if it is over the limit by itself. */
  predicate Fits(s: seq<Entry>) {
    |s| <= MAX_ENTRIES && (Bytes(s) <= MAX_BYTES || |s| <= 1)
  }

  /** `s` is the longest suffix of the history that fits. */
  ghost predicate LongestFitting(s: seq<Entry>, history: seq<Entry>) {
    && |s| <= |history| && s == history[|history| - |s|..]
    && Fits(s)
    && forall j :: 0 <= j < |history| - |s| ==> !Fits(history[j..])
  }

  /** What the eviction loop leaves before an entry of `n` bytes is written. */
  function Evict(s: seq<Entry>, n: nat): (r: seq<Entry>) {
    if |s| >= MAX_ENTRIES || (Bytes(s) + n > MAX_BYTES && |s| > 0) then Evict(s[1..], n) else s
  }

  lemma {:induction false} EvictIsSuffix(s: seq<Entry>, n: nat)
    ensures |Evict(s, n)| <= |s| && Evict(s, n) == s[|s| - |Evict(s, n)|..]
    ensures |Evict(s, n)| < MAX_ENTRIES && (Bytes(Evict(s, n)) + n <= MAX_BYTES || Evict(s, n) == [])
  {
    if |s| >= MAX_ENTRIES || (Bytes(s) + n > MAX_BYTES && |s| > 0) {
      EvictIsSuffix(s[1..], n);
    }
  }

  /** Every longer suffix would be over a limit once the entry is written. */
  lemma {:induction false} EvictsNoMore(s: seq<Entry>, e: Entry, j: nat)
    requires j < |s| - |Evict(s, |e.log|)|
    ensures !Fits(s[j..] + [e])
  {
    EvictIsSuffix(s, |e.log|);
    if j == 0 {
      assert s[0..] == s;
      BytesAppend(s, e);
    } else {
      assert s[j..] == s[1..][j - 1..];
      EvictsNoMore(s[1..], e, j - 1);
    }
  }

  lemma {:induction false} FitsSuffix(s: seq<Entry>, j: nat)
    requires Fits(s) && j <= |s|
    ensures Fits(s[j..])
  {
    if j == 0 {
      assert s[0..] == s;
    } else {
      assert s[j..] == s[1..][j - 1..];
      FitsSuffix(s[1..], j - 1);
    }
  }

  /** One push keeps the longest fitting suffix. */
  lemma PushKeepsLongest(s: seq<Entry>, history: seq<Entry>, e: Entry)
    requires LongestFitting(s, history)
    ensures LongestFitting(Evict(s, |e.log|) + [e], history + [e])
  {
    var kept := Evict(s, |e.log|);
    var r, h := kept + [e], history + [e];
    EvictIsSuffix(s, |e.log|);
    BytesAppend(kept, e);
    assert r == h[|h| - |r|..];
    forall j | 0 <= j < |h| - |r| ensures !Fits(h[j..]) {
      assert h[j..] == history[j..] + [e];
      var drop := |history| - |s|;
      if j < drop {
        NoLongerWithMore(history[j..], e);
      } else {
        assert history[j..] == s[j - drop..];
        EvictsNoMore(s, e, j - drop);
      }
    }
  }

  lemma NoLongerWithMore(s: seq<Entry>, e: Entry)
    requires !Fits(s)
    ensures !Fits(s + [e])
  {
    BytesAppend(s, e);
  }

  /** With entries of at most 16 KiB the byte limit has no exception. */
  lemma TruncatedEntriesFit(s: seq<Entry>)
    requires Bounded(s)
    ensures Fits(s) <==> |s| <= MAX_ENTRIES && Bytes(s) <= MAX_BYTES
  {
    if |s| == 1 {
      assert s[0] in s && Bytes(s[1..]) == 0;
    }
  }

  predicate Bounded(s: seq<Entry>) {
    forall e :: e in s ==> |e.log| <= MAX_ENTRY_BYTES
  }

  // ---------------------------------------------------------------------------------------
  // Truncation
  // ---------------------------------------------------------------------------------------

  /** Not a UTF-8 continuation byte. */
  predicate RuneStart(b: Byte) { !(128 <= b < 192) }

  /** The greatest cut at or below `cut` that is zero or at the start of a rune. */
  function CutAt(value: seq<Byte>, cut: nat): (r: nat)
    requires cut < |value|
    ensures r <= cut && (r == 0 || RuneStart(value[r]))
    ensures forall i :: r < i <= cut ==> !RuneStart(value[i])
  {
    if cut == 0 || RuneStart(value[cut]) then cut else CutAt(value, cut - 1)
  }

  function Truncated(value: seq<Byte>, maxBytes: int): (r: seq<Byte>) {
    if maxBytes <= 0 || |value| <= maxBytes then value
    else if maxBytes <= |SUFFIX| then SUFFIX[..maxBytes]
    else value[..CutAt(value, maxBytes - |SUFFIX|)] + SUFFIX
  }

  lemma TruncatedLength(value: seq<Byte>, maxBytes: int)
    ensures maxBytes > 0 ==> |Truncated(value, maxBytes)| <= maxBytes
  {
  }

  method TruncateLogEntry(value: seq<Byte>, maxBytes: int) returns (r: seq<Byte>)
    ensures r == Truncated(value, maxBytes)
    ensures maxBytes <= 0 || |value| <= maxBytes ==> r == value
    ensures 0 < maxBytes < |value| ==> |r| <= maxBytes
  {
    if maxBytes <= 0 || |value| <= maxBytes {
      return value;
    }
    if maxBytes <= |SUFFIX| {
      return SUFFIX[..maxBytes];
    }
    var cut := maxBytes - |SUFFIX|;
    while cut > 0 && !RuneStart(value[cut])
      invariant 0 <= cut <= maxBytes - |SUFFIX|
      invariant CutAt(value, cut) == CutAt(value, maxBytes - |SUFFIX|)
    {
      cut := cut - 1;
    }
    return value[..cut] + SUFFIX;
  }

  /** One encoded character: a starting byte and its continuation bytes. */
  predicate IsRune(r: seq<Byte>) {
    r != [] && RuneStart(r[0]) && forall i :: 1 <= i < |r| ==> !RuneStart(r[i])
  }

  /** The UTF-8 encoding of a code point. */
  function Utf8(cp: nat): (r: seq<Byte>)
    requires cp < 0x110000
  {
    if cp < 0x80 then [cp as Byte]
    else if cp < 0x800 then [(0xC0 + cp / 0x40) as Byte, (0x80 + cp % 0x40) as Byte]
    else if cp < 0x10000 then
      [(0xE0 + cp / 0x1000) as Byte, (0x80 + cp / 0x40 % 0x40) as Byte, (0x80 + cp % 0x40) as Byte]
    else
      [(0xF0 + cp / 0x40000) as Byte, (0x80 + cp / 0x1000 % 0x40) as Byte,
       (0x80 + cp / 0x40 % 0x40) as Byte, (0x80 + cp % 0x40) as Byte]
  }

  /** Every encoded code point is one such character. */
  lemma Utf8IsRune(cp: nat)
    requires cp < 0x110000
    ensures IsRune(Utf8(cp))
  {
  }

  predicate AllRunes(text: seq<seq<Byte>>) {
    forall r :: r in text ==> IsRune(r)
  }

  function Joined(text: seq<seq<Byte>>): (s: seq<Byte>) {
    if text == [] then [] else text[0] + Joined(text[1..])
  }

  /** A position that starts a rune lies between two characters. */
  lemma {:induction false} RuneBoundary(text: seq<seq<Byte>>, cut: nat) returns (k: nat)
    requires AllRunes(text) && cut < |Joined(text)| && (cut == 0 || RuneStart(Joined(text)[cut]))
    ensures k <= |text| && Joined(text[..k]) == Joined(text)[..cut]
  {
    if cut == 0 {
      k := 0;
    } else {
      assert text[0] in text;
      assert IsRune(text[0]);
      var rest := text[1..];
      var n := |text[0]|;
      assert cut >= n;
      var inner := RuneBoundary(rest, cut - n);
      k := inner + 1;
      assert text[..k][1..] == rest[..inner];
      assert Joined(text)[..cut] == text[0] + Joined(rest)[..cut - n];
    }
  }

  /** A boundary between two characters starts a rune, or is the end. */
  lemma {:induction false} BoundaryStarts(text: seq<seq<Byte>>, k: nat)
    requires AllRunes(text) && k < |text|
    ensures |Joined(text[..k])| < |Joined(text)| && RuneStart(Joined(text)[|Joined(text[..k])|])
  {
    assert text[0] in text;
    if k > 0 {
      assert text[..k][1..] == text[1..][..k - 1];
      BoundaryStarts(text[1..], k - 1);
    }
  }

  lemma {:induction false} PrefixesGrow(text: seq<seq<Byte>>, k: nat)
    requires AllRunes(text) && k < |text|
    ensures |Joined(text[..k])| < |Joined(text[..k + 1])|
  {
    assert text[0] in text;
    if k > 0 {
      assert text[..k][1..] == text[1..][..k - 1] && text[..k + 1][1..] == text[1..][..k];
      PrefixesGrow(text[1..], k - 1);
    } else {
      assert text[..1][1..] == [] && text[..1][0] == text[0];
    }
  }

  /** One character more than the cut leaves would be too long. */
  lemma NextIsTooLong(text: seq<seq<Byte>>, k: nat, room: nat)
    requires AllRunes(text) && k < |text| && room < |Joined(text)|
    requires |Joined(text[..k])| == CutAt(Joined(text), room)
    ensures |Joined(text[..k + 1])| > room
  {
    PrefixesGrow(text, k);
    if k + 1 < |text| {
      BoundaryStarts(text, k + 1);
    } else {
      assert text[..k + 1] == text;
    }
  }

  lemma {:induction false} WholeIsLonger(text: seq<seq<Byte>>, k: nat)
    requires k <= |text| && |Joined(text[..k])| < |Joined(text)|
    ensures k < |text|
  {
    assert text[..|text|] == text;
  }

  /** Truncation keeps whole characters, and as many as fit with the mark. */
  lemma TruncationKeepsRunes(text: seq<seq<Byte>>, maxBytes: int) returns (k: nat)
    requires AllRunes(text) && |SUFFIX| < maxBytes < |Joined(text)|
    ensures k < |text| && Truncated(Joined(text), maxBytes) == Joined(text[..k]) + SUFFIX
    ensures |Joined(text[..k + 1])| + |SUFFIX| > maxBytes
  {
    var room := maxBytes - |SUFFIX|;
    k := RuneBoundary(text, CutAt(Joined(text), room));
    WholeIsLonger(text, k);
    NextIsTooLong(text, k, room);
  }

  // ---------------------------------------------------------------------------------------
  // Reading back
  // ---------------------------------------------------------------------------------------

  predicate Shown(e: Entry, level: int) { e.level <= level && e.log != [] }

  /** The entries to show, newest first. */
  function Newest(s: seq<Entry>, level: int): (r: seq<Entry>)
    ensures |r| <= |s|
  {
    if s == [] then []
    else
      var last := s[|s| - 1];
      (if Shown(last, level) then [last] else []) + Newest(s[..|s| - 1], level)
  }

  /** Shown are the entries with a message whose level is at most the one asked for. */
  lemma {:induction false} NewestShows(s: seq<Entry>, level: int, e: Entry)
    ensures e in Newest(s, level) <==> e in s && e.level <= level && e.log != []
  {
    if s != [] {
      NewestShows(s[..|s| - 1], level, e);
      assert s == s[..|s| - 1] + [s[|s| - 1]];
    }
  }

  lemma NewestLast(s: seq<Entry>, e: Entry, level: int)
    ensures Newest(s + [e], level) == (if Shown(e, level) then [e] else []) + Newest(s, level)
  {
    assert (s + [e])[..|s|] == s;
  }

  /** What was pushed later comes first. */
  lemma {:induction false} NewestFirst(older: seq<Entry>, newer: seq<Entry>, level: int)
    ensures Newest(older + newer, level) == Newest(newer, level) + Newest(older, level)
    decreases |newer|
  {
    if newer == [] {
      assert older + newer == older;
    } else {
      var init, e := newer[..|newer| - 1], newer[|newer| - 1];
      assert newer == init + [e] && older + newer == (older + init) + [e];
      NewestFirst(older, init, level);
      NewestLast(older + init, e, level);
      NewestLast(init, e, level);
    }
  }

  function FirstOf(s: seq<Entry>, c: int): (r: seq<Entry>) {
    if c <= 0 then [] else if c <= |s| then s[..c] else s
  }

  lemma NewestStep(output: seq<Entry>, left: seq<Entry>, level: int)
    requires left != []
    ensures var last, rest := left[|left| - 1], Newest(left[..|left| - 1], level);
      output + Newest(left, level) == (if Shown(last, level) then output + [last] else output) + rest
  {
  }

  /** Bounding the request by the number of entries changes nothing. */
  lemma LimitIsHarmless(s: seq<Entry>, c: int, limit: int, count: nat)
    requires c > 0 && (limit == c || count <= limit < c) && |s| <= count
    ensures FirstOf(s, limit) == FirstOf(s, c)
  {
  }

  // ---------------------------------------------------------------------------------------
  // The ring
  // ---------------------------------------------------------------------------------------

  /** Slot `i` is in use. */
  predicate InUse(head: nat, count: nat, i: nat) {
    head <= i < head + count || i + MAX_ENTRIES < head + count
  }

  /** The slots in use, oldest first. */
  function Window(a: seq<Entry>, head: nat, count: nat): (s: seq<Entry>)
    requires |a| == MAX_ENTRIES && head < MAX_ENTRIES && count <= MAX_ENTRIES
    ensures |s| == count
  {
    if head + count <= MAX_ENTRIES then a[head..head + count] else a[head..] + a[..head + count - MAX_ENTRIES]
  }

  /** The slot that holds the entry number `i` from the oldest. */
  function Slot(head: nat, i: nat): (r: nat)
    requires head < MAX_ENTRIES && i <= MAX_ENTRIES
    ensures r == (head + i) % MAX_ENTRIES
  {
    if head + i < MAX_ENTRIES then head + i else head + i - MAX_ENTRIES
  }

  lemma WindowAt(a: seq<Entry>, head: nat, count: nat, i: nat)
    requires |a| == MAX_ENTRIES && head < MAX_ENTRIES && count <= MAX_ENTRIES && i < count
    ensures Window(a, head, count)[i] == a[Slot(head, i)]
  {
  }

  function Previous(idx: nat): (r: nat)
    requires idx < MAX_ENTRIES
    ensures r == if idx == 0 then MAX_ENTRIES - 1 else idx - 1
  {
    (idx - 1 + MAX_ENTRIES) % MAX_ENTRIES
  }

  /** The slots make up the ring: bytes counted, and no message kept in a slot not in use. */
  predicate RingOk(a: seq<Entry>, head: nat, tail: nat, count: nat, bytes: int) {
    && |a| == MAX_ENTRIES && head < MAX_ENTRIES && count <= MAX_ENTRIES
    && tail == Slot(head, count)
    && bytes == Bytes(Window(a, head, count))
    && forall i: nat :: i < MAX_ENTRIES && !InUse(head, count, i) ==> a[i].log == []
  }

  lemma WindowRest(a: seq<Entry>, head: nat, count: nat, b: seq<Entry>)
    requires |a| == |b| == MAX_ENTRIES && head < MAX_ENTRIES && 0 < count <= MAX_ENTRIES
    requires forall i :: 0 <= i < MAX_ENTRIES && i != head ==> a[i] == b[i]
    ensures Window(b, Slot(head, 1), count - 1) == Window(a, head, count)[1..]
  {
    var next := Slot(head, 1);
    forall i: nat | i < count - 1 ensures Window(b, next, count - 1)[i] == Window(a, head, count)[1..][i] {
      WindowAt(b, next, count - 1, i);
      WindowAt(a, head, count, i + 1);
      assert Slot(next, i) == Slot(head, i + 1) != head;
    }
  }

  lemma DropFirst(a: seq<Entry>, head: nat, tail: nat, count: nat, bytes: int)
    requires RingOk(a, head, tail, count, bytes) && count > 0
    ensures RingOk(a[head := a[head].(log := [])], Slot(head, 1), tail, count - 1, bytes - |a[head].log|)
    ensures Window(a[head := a[head].(log := [])], Slot(head, 1), count - 1) == Window(a, head, count)[1..]
  {
    WindowRest(a, head, count, a[head := a[head].(log := [])]);
    WindowAt(a, head, count, 0);
  }

  lemma WriteLast(a: seq<Entry>, head: nat, tail: nat, count: nat, bytes: int, e: Entry)
    requires RingOk(a, head, tail, count, bytes) && count < MAX_ENTRIES
    ensures RingOk(a[tail := e], head, Slot(tail, 1), count + 1, bytes + |e.log|)
    ensures Window(a[tail := e], head, count + 1) == Window(a, head, count) + [e]
  {
    var b := a[tail := e];
    forall i: nat | i < count + 1 ensures Window(b, head, count + 1)[i] == (Window(a, head, count) + [e])[i] {
      WindowAt(b, head, count + 1, i);
      if i < count {
        WindowAt(a, head, count, i);
        assert Slot(head, i) != tail;
      }
    }
    assert Window(b, head, count + 1) == Window(a, head, count) + [e];
    BytesAppend(Window(a, head, count), e);
  }

  lemma PreviousIs(head: nat, count: nat, i: nat, idx: nat)
    requires head < MAX_ENTRIES && i + 1 < count <= MAX_ENTRIES && idx == Slot(head, count - 1 - i)
    ensures Previous(idx) == Slot(head, count - 1 - (i + 1))
  {
  }

  predicate Holds(slots: seq<Entry>, head: nat, all: seq<Entry>) {
    && |slots| == MAX_ENTRIES && head < MAX_ENTRIES && |all| <= MAX_ENTRIES
    && forall i: nat :: i < |all| ==> slots[Slot(head, i)] == all[i]
  }

  /** The loop of GetLogs, from the newest entry to the oldest. */
  method Collect(slots: seq<Entry>, head: nat, tail: nat, ghost all: seq<Entry>, count: nat, limit: nat, level: int)
    returns (output: seq<Entry>)
    requires Holds(slots, head, all) && count == |all| > 0 && tail == Slot(head, count)
    ensures output == FirstOf(Newest(all, level), limit)
  {
    output := [];
    var idx := Previous(tail);
    ghost var left := all;
    for i := 0 to count
      invariant |output| <= limit && idx < MAX_ENTRIES && (i < count ==> idx == Slot(head, count - 1 - i))
      invariant |left| == count - i && left == all[..count - i]
      invariant Newest(all, level) == output + Newest(left, level)
    {
      if |output| >= limit {
        break;
      }
      NewestStep(output, left, level);
      if Shown(slots[idx], level) {
        output := output + [slots[idx]];
      }
      if i + 1 < count {
        PreviousIs(head, count, i, idx);
      }
      idx := Previous(idx);
      left := left[..|left| - 1];
    }
  }

  class Ring {
    const entries: array<Entry>
    var head: nat
    var tail: nat
    var count: nat
    var curBytes: int
    ghost var history: seq<Entry>

    ghost predicate Shape()
      reads this, entries
    {
      RingOk(entries[..], head, tail, count, curBytes)
    }

    ghost predicate Valid()
      reads this, entries
    {
      Shape() && LongestFitting(Contents(), history)
    }

    ghost function Contents(): (s: seq<Entry>)
      requires Shape()
      reads this, entries
    {
      Window(entries[..], head, count)
    }

    constructor ()
      ensures Valid() && history == [] && fresh(entries)
    {
      entries := new Entry[MAX_ENTRIES](_ => BLANK);
      head, tail, count, curBytes, history := 0, 0, 0, 0, [];
    }

    /** One turn of the eviction loop. */
    method DropOldest()
      requires Shape() && count > 0
      modifies this, entries
      ensures Shape() && Contents() == old(Contents())[1..] && history == old(history)
    {
      ghost var before, first := entries[..], head;
      DropFirst(before, head, tail, count, curBytes);
      var oldLen := |entries[head].log|;
      entries[head] := entries[head].(log := []);
      ghost var after := before[first := before[first].(log := [])];
      assert entries[..] == after;
      head := (head + 1) % MAX_ENTRIES;
      assert head == Slot(first, 1);
      count := count - 1;
      curBytes := curBytes - oldLen;
    }

    method Write(entry: Entry)
      requires Shape() && count < MAX_ENTRIES
      modifies this, entries
      ensures Shape() && Contents() == old(Contents()) + [entry] && history == old(history)
    {
      WriteLast(entries[..], head, tail, count, curBytes, entry);
      entries[tail] := entry;
      tail := (tail + 1) % MAX_ENTRIES;
      count := count + 1;
      curBytes := curBytes + |entry.log|;
    }

    /** After every push the ring holds the longest suffix of the history within both limits. */
    method Push(entry: Entry)
      requires Valid()
      modifies this, entries
      ensures Valid() && history == old(history) + [entry]
    {
      ghost var before := Contents();
      while count >= MAX_ENTRIES || (curBytes + |entry.log| > MAX_BYTES && count > 0)
        invariant Shape() && history == old(history)
        invariant Evict(Contents(), |entry.log|) == Evict(before, |entry.log|)
        decreases count
      {
        DropOldest();
      }
      Write(entry);
      PushKeepsLongest(before, history, entry);
      history := history + [entry];
    }

    /** addToBuffer: every entry it pushes has at most 16 KiB. */
    method Add(time: nat, level: int, log: seq<Byte>)
      requires Valid() && Bounded(history)
      modifies this, entries
      ensures Valid() && Bounded(history)
      ensures history == old(history) + [Entry(time, level, Truncated(log, MAX_ENTRY_BYTES))]
      ensures |Contents()| <= MAX_ENTRIES && Bytes(Contents()) <= MAX_BYTES
      ensures forall j :: 0 <= j < |history| - |Contents()| ==>
        |history[j..]| > MAX_ENTRIES || Bytes(history[j..]) > MAX_BYTES
    {
      var cut := TruncateLogEntry(log, MAX_ENTRY_BYTES);
      TruncatedLength(log, MAX_ENTRY_BYTES);
      Push(Entry(time, level, cut));
      TruncatedEntriesFit(Contents());
    }

    /** The first `c` entries to show, newest first; asking for more than there are is harmless. */
    method GetLogs(c: int, level: int) returns (output: seq<Entry>)
      requires Shape()
      ensures output == FirstOf(Newest(Contents(), level), c)
    {
      if c <= 0 {
        return [];
      }
      var limit := if c > MAX_ENTRIES then MAX_ENTRIES else c;
      if limit > count {
        limit := count;
      }
      if limit == 0 {
        return [];
      }
      assert limit == c || count <= limit < c;
      forall i: nat | i < count ensures entries[..][Slot(head, i)] == Contents()[i] {
        WindowAt(entries[..], head, count, i);
      }
      output := Collect(entries[..], head, tail, Contents(), count, limit, level);
      LimitIsHarmless(Newest(Contents(), level), c, limit, count);
    }
  }
}
