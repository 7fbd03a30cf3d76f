/**
 The text of captured command output: replacement decoding of UTF-8 (section 3.9 of
 the Unicode Standard), cut to a byte limit on a character boundary.
 */
module OutputText {
  import opened Base

  const OUTPUT_LIMIT: nat := 64 * 1024

  // ----- UTF-8 -----

  predicate Continuation(b: Byte) { 0x80 <= b <= 0xBF }

  /** How many bytes a sequence with this first byte needs; none for a byte that starts no sequence. */
  function Needed(first: Byte): nat {
    if first <= 0x7F then 1
    else if 0xC2 <= first <= 0xDF then 2
    else if 0xE0 <= first <= 0xEF then 3
    else if 0xF0 <= first <= 0xF4 then 4
    else 0
  }

  predicate SecondAllowed(first: Byte, second: Byte) {
    Continuation(second)
    && (first == 0xE0 ==> second >= 0xA0) && (first == 0xED ==> second <= 0x9F)
    && (first == 0xF0 ==> second >= 0x90) && (first == 0xF4 ==> second <= 0x8F)
  }

  /** How many leading bytes agree with a well-formed sequence, at least one. */
  function Matched(b: Bytes): (n: nat)
    requires b != []
    ensures 1 <= n <= |b| && n <= 4 && (Needed(b[0]) > 0 ==> n <= Needed(b[0]))
  {
    var needed := Needed(b[0]);
    if needed < 2 || |b| < 2 || !SecondAllowed(b[0], b[1]) then 1
    else if needed < 3 || |b| < 3 || !Continuation(b[2]) then 2
    else if needed < 4 || |b| < 4 || !Continuation(b[3]) then 3
    else 4
  }

  predicate WellFormedStart(b: Bytes)
    requires b != []
  {
    Matched(b) == Needed(b[0])
  }

  predicate Valid(b: Bytes) {
    b == [] || (WellFormedStart(b) && Valid(b[Matched(b)..]))
  }

  /** U+FFFD. */
  const REPLACEMENT: Bytes := [0xEF, 0xBF, 0xBD]

  /** Every maximal part that is not well formed becomes one replacement character. */
  function Lossy(b: Bytes): Bytes {
    if b == [] then []
    else (if WellFormedStart(b) then b[..Matched(b)] else REPLACEMENT) + Lossy(b[Matched(b)..])
  }

  /** Replacement never shortens. */
  lemma {:induction false} LossyNotShorter(b: Bytes)
    ensures |Lossy(b)| >= |b|
    decreases |b|
  {
    if b != [] {
      LossyNotShorter(b[Matched(b)..]);
    }
  }

  lemma MatchedStable(a: Bytes, b: Bytes)
    requires a != [] && WellFormedStart(a)
    ensures Matched(a[..Matched(a)] + b) == Matched(a) && WellFormedStart(a[..Matched(a)] + b)
  {
  }

  lemma {:induction false} ValidConcat(a: Bytes, b: Bytes)
    requires Valid(a) && Valid(b)
    ensures Valid(a + b)
    decreases |a|
  {
    if a == [] {
      assert a + b == b;
    } else {
      var n := Matched(a);
      MatchedStable(a, a[n..] + b);
      assert a[..n] + (a[n..] + b) == a + b;
      assert (a + b)[n..] == a[n..] + b;
      ValidConcat(a[n..], b);
    }
  }

  /** Decoding gives well-formed text, and changes nothing exactly when there was nothing to replace. */
  lemma {:induction false} LossyIsValid(b: Bytes)
    ensures Valid(Lossy(b)) && (Valid(b) ==> Lossy(b) == b)
    decreases |b|
  {
    if b != [] {
      var n := Matched(b);
      LossyIsValid(b[n..]);
      assert b == b[..n] + b[n..];
      if WellFormedStart(b) {
        MatchedStable(b, []);
        assert b[..n] + [] == b[..n] && b[..n][n..] == [];
        ValidConcat(b[..n], Lossy(b[n..]));
      } else {
        assert REPLACEMENT[3..] == [] && Matched(REPLACEMENT) == 3;
        ValidConcat(REPLACEMENT, Lossy(b[n..]));
      }
    }
  }

  // ----- Character boundaries -----

  predicate Boundary(t: Bytes, i: nat)
    requires i <= |t|
  {
    i == 0 || i == |t| || !Continuation(t[i])
  }

  function FirstBoundary(t: Bytes, from: nat): (i: nat)
    requires from <= |t|
    ensures from <= i <= |t| && Boundary(t, i)
    ensures forall k :: from <= k < i ==> !Boundary(t, k)
    decreases |t| - from
  {
    if Boundary(t, from) then from else FirstBoundary(t, from + 1)
  }

  lemma InsideIsContinuation(t: Bytes, i: nat)
    requires t != [] && WellFormedStart(t) && 0 < i < Matched(t)
    ensures Continuation(t[i])
  {
  }

  lemma StartIsNoContinuation(t: Bytes)
    requires t != [] && WellFormedStart(t)
    ensures !Continuation(t[0])
  {
  }

  /** What follows the first character of well-formed text is well formed. */
  lemma ValidTail(t: Bytes)
    requires Valid(t) && t != []
    ensures Valid(t[Matched(t)..])
  {
  }

  /** No boundary lies inside the first character. */
  lemma BoundaryAfterFirst(t: Bytes, i: nat)
    requires Valid(t) && 0 < i < |t| && Boundary(t, i)
    ensures Matched(t) <= i && Boundary(t[Matched(t)..], i - Matched(t))
  {
    var n := Matched(t);
    if i < n {
      InsideIsContinuation(t, i);
    } else if i > n {
      assert t[n..][i - n] == t[i];
    }
  }

  /** A boundary of well-formed text splits it into well-formed texts. */
  lemma {:induction false} BoundarySplits(t: Bytes, i: nat)
    requires Valid(t) && i <= |t| && Boundary(t, i)
    ensures Valid(t[i..])
    decreases |t|
  {
    hide Valid, Matched, Boundary;
    if i == 0 {
      assert t[0..] == t;
    } else if i == |t| {
      EmptyIsValid();
      assert t[i..] == [];
    } else {
      var n := Matched(t);
      BoundaryAfterFirst(t, i);
      ValidTail(t);
      assert t[n..][i - n..] == t[i..];
      BoundarySplits(t[n..], i - n);
    }
  }

  lemma EmptyIsValid()
    ensures Valid([])
  {
  }

  /** From any place, a boundary is at most three bytes away, over continuation bytes. */
  lemma {:induction false} BoundaryIsNear(t: Bytes, from: nat)
    requires Valid(t) && from <= |t|
    ensures FirstBoundary(t, from) <= from + 3
    decreases |t|
  {
    if t != [] && from > 0 {
      var n := Matched(t);
      if from < n {
        NextStart(t);
      } else {
        BoundaryIsNear(t[n..], from - n);
        ShiftBoundary(t, n, from);
      }
    }
  }

  lemma NextStart(t: Bytes)
    requires Valid(t) && t != []
    ensures Boundary(t, Matched(t))
  {
    var n := Matched(t);
    if n < |t| {
      assert t[n] == t[n..][0];
      StartIsNoContinuation(t[n..]);
    }
  }

  lemma {:induction false} ShiftBoundary(t: Bytes, n: nat, from: nat)
    requires n <= from <= |t| && Boundary(t, n)
    ensures FirstBoundary(t, from) == n + FirstBoundary(t[n..], from - n)
    decreases |t| - from
  {
    if from < |t| {
      assert t[from] == t[n..][from - n];
      if !Boundary(t, from) {
        ShiftBoundary(t, n, from + 1);
      }
    }
  }

  // ----- The text -----

  /** The bytes kept of an output, and how many there were. */
  datatype Captured = Captured(bytes: Bytes, originalBytes: nat)

  predicate Truncated(o: Captured) {
    o.originalBytes > |o.bytes| || |Lossy(o.bytes)| > OUTPUT_LIMIT
  }

  function Notice(o: Captured): Bytes {
    if Truncated(o) then
      Ascii("[machine-fabric: output truncated; showing tail of ") + Decimal(o.originalBytes) + Ascii(" original bytes]\n")
    else []
  }

  lemma NoticeIsShort(o: Captured)
    requires o.originalBytes <= U64_MAX
    ensures |Notice(o)| <= 100
  {
    assert Power10(20) == 100_000_000_000_000_000_000 by {
      assert Power10(5) == 100_000;
      assert Power10(10) == 10_000_000_000;
      assert Power10(15) == 1_000_000_000_000_000;
    }
    DecimalLength(o.originalBytes, 20);
  }

  function Budget(o: Captured): nat
    requires o.originalBytes <= U64_MAX
  {
    NoticeIsShort(o);
    OUTPUT_LIMIT - |Notice(o)|
  }

  /** Where the kept tail of a sequence of this length begins. */
  function TailStart(length: nat, budget: nat): nat { if length > budget then length - budget else 0 }

  /** The end of a text within the budget, from a character boundary on. */
  function Cut(tail: Bytes, budget: nat): Bytes { tail[FirstBoundary(tail, TailStart(|tail|, budget))..] }

  function Text(o: Captured): Bytes
    requires o.originalBytes <= U64_MAX
  {
    Notice(o) + Cut(Lossy(o.bytes[TailStart(|o.bytes|, Budget(o))..]), Budget(o))
  }

  method ShowText(o: Captured) returns (r: Bytes)
    requires o.originalBytes <= U64_MAX
    ensures r == Text(o)
  {
    hide Lossy, Notice, Truncated;
    NoticeIsShort(o);
    var notice := Notice(o);
    var budget := OUTPUT_LIMIT - |notice|;
    var start := if |o.bytes| > budget then |o.bytes| - budget else 0;
    var tail := Lossy(o.bytes[start..]);
    var first := if |tail| > budget then |tail| - budget else 0;
    var offset := first;
    while !Boundary(tail, offset)
      invariant first <= offset <= |tail|
      invariant FirstBoundary(tail, offset) == FirstBoundary(tail, first)
      decreases |tail| - offset
    {
      offset := offset + 1;
    }
    r := notice + tail[offset..];
  }

  lemma {:induction false} AsciiIsValid(b: Bytes)
    requires forall i :: 0 <= i < |b| ==> b[i] <= 0x7F
    ensures Valid(b)
    decreases |b|
  {
    if b != [] {
      assert Matched(b) == 1;
      AsciiIsValid(b[1..]);
    }
  }

  lemma LiteralIsValid(s: string)
    ensures Valid(Ascii(s))
  {
    AsciiIsValid(Ascii(s));
  }

  lemma DecimalIsValid(n: nat)
    ensures Valid(Decimal(n))
  {
    DecimalDigits(n);
    var digits := Decimal(n);
    forall i | 0 <= i < |digits| ensures digits[i] <= 0x7F {
      assert digits[i] in digits;
    }
    AsciiIsValid(digits);
  }

  lemma NoticeIsValid(o: Captured)
    ensures Valid(Notice(o))
  {
    hide Ascii, Truncated, Decimal;
    if Truncated(o) {
      var before := Ascii("[machine-fabric: output truncated; showing tail of ");
      LiteralIsValid("[machine-fabric: output truncated; showing tail of ");
      LiteralIsValid(" original bytes]\n");
      DecimalIsValid(o.originalBytes);
      ValidConcat(before, Decimal(o.originalBytes));
      ValidConcat(before + Decimal(o.originalBytes), Ascii(" original bytes]\n"));
    }
  }

  /** The text never exceeds the limit, is well formed, and is cut at most three bytes short. */
  lemma TextIsBounded(o: Captured)
    requires o.originalBytes <= U64_MAX
    ensures |Text(o)| <= OUTPUT_LIMIT && Valid(Text(o))
    ensures |o.bytes| >= Budget(o) ==> |Text(o)| >= OUTPUT_LIMIT - 3
  {
    hide Notice, Truncated;
    var budget := Budget(o);
    var part := o.bytes[TailStart(|o.bytes|, budget)..];
    var tail := Lossy(part);
    var from := TailStart(|tail|, budget);
    LossyNotShorter(part);
    LossyIsValid(part);
    var offset := FirstBoundary(tail, from);
    BoundarySplits(tail, offset);
    BoundaryIsNear(tail, from);
    NoticeIsValid(o);
    ValidConcat(Notice(o), tail[offset..]);
  }

  /** Output that is not marked as truncated is shown whole; output marked so carries the notice. */
  lemma UnmarkedTextIsComplete(o: Captured)
    requires o.originalBytes <= U64_MAX
    ensures !Truncated(o) ==> Text(o) == Lossy(o.bytes)
    ensures Truncated(o) ==> Ascii("[machine-fabric: output truncated; showing tail of ") <= Text(o)
  {
    hide Lossy;
    LossyNotShorter(o.bytes);
    if !Truncated(o) {
      assert Notice(o) == [];
      assert o.bytes[0..] == o.bytes;
      assert Lossy(o.bytes)[0..] == Lossy(o.bytes);
    }
  }

  // ----- Where a cut falls inside a character -----

  function Replacements(n: nat): Bytes { if n == 0 then [] else REPLACEMENT + Replacements(n - 1) }

  lemma LooseContinuation(b: Bytes)
    requires b != [] && Continuation(b[0])
    ensures Lossy(b) == REPLACEMENT + Lossy(b[1..])
  {
    assert Matched(b) == 1 && Needed(b[0]) == 0;
  }

  lemma {:induction false} LooseContinuations(b: Bytes, n: nat)
    requires n <= |b| && Valid(b[n..]) && forall i :: 0 <= i < n ==> Continuation(b[i])
    ensures Lossy(b) == Replacements(n) + b[n..]
    decreases n
  {
    hide Lossy, Valid, Continuation;
    if n == 0 {
      assert b[0..] == b;
      LossyIsValid(b);
      assert Replacements(0) + b == b;
    } else {
      LooseContinuation(b);
      assert b[1..][n - 1..] == b[n..];
      LooseContinuations(b[1..], n - 1);
      assert REPLACEMENT + (Replacements(n - 1) + b[n..]) == Replacements(n) + b[n..];
    }
  }

  /** The bytes of a character that a cut at `start` leaves behind. */
  function Leftover(b: Bytes, start: nat): nat
    requires start <= |b|
  {
    FirstBoundary(b, start) - start
  }

  /** The kept bytes are the last ones of the output. */
  predicate TailOf(o: Captured, w: Bytes) { |o.bytes| <= |w| && o.bytes == w[|w| - |o.bytes|..] }

  /**
   Well-formed output of which more is kept than fits is shown as the notice and a
   suffix of it, cut at the next character; except that the last three bytes of a four
   byte character leave one replacement character in front. The kept bytes themselves
   may begin inside a character.
   */
  lemma CutOutput(o: Captured, w: Bytes)
    requires o.originalBytes <= U64_MAX && Valid(w) && TailOf(o, w) && |o.bytes| > Budget(o)
    ensures var start := |w| - Budget(o);
      var left := Leftover(w, start);
      left <= 3 && start + left <= |w|
      && Text(o) == Notice(o) + (if left == 3 then REPLACEMENT else []) + w[start + left..]
  {
    hide Lossy, Notice, Truncated, Valid, Cut, Text, Replacements, Leftover;
    NoticeIsShort(o);
    TextOfTail(o, w);
    var start := |w| - Budget(o);
    var left := Leftover(w, start);
    LeftoverDecodes(w, start);
    CutReplacements(left, w[start + left..], Budget(o));
    Regroup(Notice(o), if left == 3 then REPLACEMENT else [], w[start + left..]);
  }

  lemma TextOfTail(o: Captured, w: Bytes)
    requires o.originalBytes <= U64_MAX && TailOf(o, w) && |o.bytes| > Budget(o)
    ensures Text(o) == Notice(o) + Cut(Lossy(w[|w| - Budget(o)..]), Budget(o))
  {
    hide Lossy, Notice, Truncated, Cut;
    assert o.bytes[|o.bytes| - Budget(o)..] == w[|w| - Budget(o)..];
  }

  lemma Regroup(a: Bytes, b: Bytes, c: Bytes)
    ensures a + (b + c) == a + b + c
  {
  }

  /** What is kept of an output: its last bytes up to the limit, and its length. */
  function Kept(w: Bytes): Captured { Captured(w[TailStart(|w|, OUTPUT_LIMIT)..], |w|) }

  /** Reading the tail of an output that was `measured` bytes long and may have grown since. */
  method KeepTail(measured: nat, file: Bytes) returns (o: Captured)
    requires measured <= |file|
    ensures o == Kept(file[..measured]) && TailOf(o, file[..measured])
  {
    var start := if measured > OUTPUT_LIMIT then measured - OUTPUT_LIMIT else 0;
    var bytes: Bytes := [];
    for i := start to measured
      invariant bytes == file[start..i]
    {
      bytes := bytes + [file[i]];
    }
    assert file[start..measured] == file[..measured][start..];
    o := Captured(bytes, measured);
  }

  /** A well-formed output within the limit is shown as it is. */
  lemma KeptWhole(w: Bytes)
    requires Valid(w) && |w| <= OUTPUT_LIMIT
    ensures Notice(Kept(w)) == [] && Text(Kept(w)) == w
  {
    hide Valid, Lossy, Text;
    assert w[0..] == w && Kept(w).bytes == w;
    LossyIsValid(w);
    UnmarkedTextIsComplete(Kept(w));
  }

  /** Of a longer one more is kept than fits beside the notice. */
  lemma KeptIsCut(w: Bytes)
    requires OUTPUT_LIMIT < |w| <= U64_MAX
    ensures Truncated(Kept(w)) && TailOf(Kept(w), w) && |Kept(w).bytes| > Budget(Kept(w))
  {
    hide Lossy;
    NoticeIsNotEmpty(Kept(w));
  }

  lemma KeptOutput(w: Bytes)
    requires Valid(w) && OUTPUT_LIMIT < |w| <= U64_MAX
    ensures var o := Kept(w);
      var start := |w| - Budget(o);
      var left := Leftover(w, start);
      && left <= 3 && start + left <= |w|
      && Text(o) == Notice(o) + (if left == 3 then REPLACEMENT else []) + w[start + left..]
  {
    hide Valid, Lossy, Leftover, Text, Notice, Truncated;
    KeptIsCut(w);
    CutOutput(Kept(w), w);
  }

  lemma LooseBytes(b: Bytes, start: nat)
    requires Valid(b) && start <= |b|
    ensures var left := Leftover(b, start); left <= 3 && start + left <= |b| && Valid(b[start + left..])
    ensures forall i :: start <= i < start + Leftover(b, start) ==> Continuation(b[i])
  {
    hide Valid;
    var left := Leftover(b, start);
    BoundaryIsNear(b, start);
    BoundarySplits(b, start + left);
    forall i | start <= i < start + left ensures Continuation(b[i]) {
      assert !Boundary(b, i);
    }
  }

  /** The tail of well-formed bytes decodes to a replacement per loose byte, then the rest. */
  lemma LeftoverDecodes(b: Bytes, start: nat)
    requires Valid(b) && start <= |b|
    ensures var left := Leftover(b, start);
      left <= 3 && start + left <= |b| && Valid(b[start + left..])
      && Lossy(b[start..]) == Replacements(left) + b[start + left..]
  {
    hide Lossy, Valid, Leftover, Continuation, Replacements;
    LooseBytes(b, start);
    var part, left := b[start..], Leftover(b, start);
    assert part[left..] == b[start + left..];
    forall i | 0 <= i < left ensures Continuation(part[i]) {
      assert part[i] == b[start + i];
    }
    LooseContinuations(part, left);
  }

  /** Of `n` replacement characters and a text, as many bytes as fit are kept from the end. */
  lemma CutReplacements(n: nat, rest: Bytes, budget: nat)
    requires n <= 3 && Valid(rest) && n + |rest| == budget && budget > 4
    ensures Cut(Replacements(n) + rest, budget) == (if n == 3 then REPLACEMENT else []) + rest
  {
    hide Valid, Replacements;
    var tail := Replacements(n) + rest;
    ReplacementBytes(n);
    StartsClean(rest);
    assert |tail| == budget + 2 * n;
    if n == 0 {
      assert Boundary(tail, 0) && tail[0..] == rest;
    } else if n == 1 {
      assert tail[3..] == rest && !Boundary(tail, 2) && Boundary(tail, 3);
    } else if n == 2 {
      assert tail[6..] == rest && !Boundary(tail, 4) && !Boundary(tail, 5) && Boundary(tail, 6);
    } else {
      assert Boundary(tail, 6) && tail[6..] == REPLACEMENT + rest;
    }
  }

  lemma ReplacementBytes(n: nat)
    requires n <= 3
    ensures Replacements(n) == (REPLACEMENT + REPLACEMENT + REPLACEMENT)[..3 * n]
  {
    assert Replacements(1) == REPLACEMENT + Replacements(0);
    assert Replacements(2) == REPLACEMENT + Replacements(1);
    assert Replacements(3) == REPLACEMENT + Replacements(2);
  }

  lemma StartsClean(rest: Bytes)
    requires Valid(rest)
    ensures rest != [] ==> !Continuation(rest[0])
  {
  }

  /** The notice, then some suffix of the output. */
  ghost predicate ShowsSuffix(o: Captured, w: Bytes)
    requires o.originalBytes <= U64_MAX
  {
    exists k :: 0 <= k <= |w| && Text(o) == Notice(o) + w[k..]
  }

  /** What is shown of kept well-formed output is a suffix of the output exactly when
      the cut leaves fewer than three loose bytes. */
  lemma CutIsSuffixIff(o: Captured, w: Bytes)
    requires o.originalBytes <= U64_MAX && Valid(w) && TailOf(o, w) && |o.bytes| > Budget(o)
    ensures ShowsSuffix(o, w) <==> Leftover(w, |w| - Budget(o)) < 3
  {
    hide Lossy, Notice, Truncated, Valid, Text, Boundary, FirstBoundary, Leftover;
    NoticeIsShort(o);
    CutOutput(o, w);
    var start := |w| - Budget(o);
    var left := Leftover(w, start);
    LooseBytes(w, start);
    if left < 3 {
      assert Text(o) == Notice(o) + w[start + left..];
    }
    if left == 3 {
      assert Continuation(w[start]);
      assert Text(o) == Notice(o) + (REPLACEMENT + w[start + 3..]);
      forall k | 0 <= k <= |w| ensures Text(o) != Notice(o) + w[k..] {
        ReplacementIsNoSuffix(w, start, k);
        OtherTail(Notice(o), REPLACEMENT + w[start + 3..], w[k..]);
      }
    }
  }

  /** The same for everything the program captures of a well-formed output. */
  lemma ShownIsSuffixIff(w: Bytes)
    requires Valid(w) && |w| <= U64_MAX
    ensures ShowsSuffix(Kept(w), w) <==> |w| <= OUTPUT_LIMIT || Leftover(w, |w| - Budget(Kept(w))) < 3
  {
    hide Valid, Text, Leftover, Notice, Truncated;
    if |w| <= OUTPUT_LIMIT {
      KeptWhole(w);
      assert Text(Kept(w)) == Notice(Kept(w)) + w[0..];
    } else {
      KeptIsCut(w);
      CutIsSuffixIff(Kept(w), w);
    }
  }

  lemma NoticeIsNotEmpty(o: Captured)
    requires Truncated(o)
    ensures |Notice(o)| > 0
  {
    assert |Ascii("[machine-fabric: output truncated; showing tail of ")| > 0;
  }

  lemma ReplacementIsNoSuffix(b: Bytes, start: nat, k: nat)
    requires start + 3 <= |b| && k <= |b| && Continuation(b[start])
    ensures REPLACEMENT + b[start + 3..] != b[k..]
  {
    var shown := REPLACEMENT + b[start + 3..];
    if k == start {
      assert b[k..][0] == b[start] && shown[0] == 0xEF;
    } else {
      assert |b[k..]| != |shown|;
    }
  }

  lemma OtherTail(a: Bytes, b: Bytes, c: Bytes)
    requires b != c
    ensures a + b != a + c
  {
    assert (a + b)[|a|..] == b && (a + c)[|a|..] == c;
  }

  function Letters(n: nat): Bytes { seq(n, _ => 0x61) }

  /** `n` letters, a four byte character, then `k` letters. */
  function EmojiAmongLetters(n: nat, k: nat): Bytes { Letters(n) + [0xF0, 0x9F, 0x98, 0x80] + Letters(k) }

  lemma EmojiIsValid(n: nat, k: nat)
    ensures Valid(EmojiAmongLetters(n, k))
  {
    var emoji: Bytes := [0xF0, 0x9F, 0x98, 0x80];
    assert emoji[4..] == [] && Matched(emoji) == 4;
    AsciiIsValid(Letters(n));
    AsciiIsValid(Letters(k));
    ValidConcat(Letters(n), emoji);
    ValidConcat(Letters(n) + emoji, Letters(k));
  }

  lemma EmojiIsCut(n: nat, k: nat)
    ensures var w := EmojiAmongLetters(n, k); Valid(w) && |w| == n + k + 4 && Leftover(w, n + 1) == 3
  {
    hide Valid;
    EmojiIsValid(n, k);
    var w := EmojiAmongLetters(n, k);
    assert w[n + 1] == 0x9F && w[n + 2] == 0x98 && w[n + 3] == 0x80;
    assert !Boundary(w, n + 1) && !Boundary(w, n + 2) && !Boundary(w, n + 3) && Boundary(w, n + 4);
  }

  /** An output of 70000 bytes whose cut falls after the first byte of a character. */
  lemma LooseBytesAreShown() returns (w: Bytes)
    ensures Valid(w) && |w| == 70_000 && Leftover(w, |w| - Budget(Kept(w))) == 3
    ensures !ShowsSuffix(Kept(w), w)
  {
    hide Lossy, Valid, Leftover, EmojiAmongLetters, ShowsSuffix;
    var none := Captured([], 70_000);
    NoticeIsShort(none);
    var start := 70_000 - Budget(none);
    EmojiIsCut(start - 1, 70_000 - start - 3);
    w := EmojiAmongLetters(start - 1, 70_000 - start - 3);
    assert Truncated(Kept(w)) && Truncated(none);
    assert Notice(Kept(w)) == Notice(none);
    ShownIsSuffixIff(w);
  }
}
