/** The bounded previews of internal/opencode/worker.go (the tail of a text) and
    internal/claude/worker.go (its head), cut at the character boundaries of UTF-8. */
module Utf8Bounds {

  newtype byte = x: int | 0 <= x < 256

  type Bytes = seq<byte>

  // ---------------------------------------------------------------- UTF-8 (RFC 3629, section 4)

  predicate Tail(b: byte) {
    0x80 <= b <= 0xBF
  }

  /** The bytes that may follow a lead byte. */
  predicate SecondOk(lead: byte, second: byte) {
    && Tail(second)
    && (lead == 0xE0 ==> 0xA0 <= second) && (lead == 0xED ==> second <= 0x9F)
    && (lead == 0xF0 ==> 0x90 <= second) && (lead == 0xF4 ==> second <= 0x8F)
  }

  /** The length of the character that starts the text, or 0 if none does. */
  function CharLen(s: Bytes): (n: nat)
    ensures n <= 4 && n <= |s|
    ensures n > 0 ==> !Tail(s[0]) && forall i :: 1 <= i < n ==> Tail(s[i])
  {
    if s == [] then 0
    else if s[0] <= 0x7F then 1
    else if 0xC2 <= s[0] <= 0xDF then
      if |s| >= 2 && Tail(s[1]) then 2 else 0
    else if 0xE0 <= s[0] <= 0xEF then
      if |s| >= 3 && SecondOk(s[0], s[1]) && Tail(s[2]) then 3 else 0
    else if 0xF0 <= s[0] <= 0xF4 then
      if |s| >= 4 && SecondOk(s[0], s[1]) && Tail(s[2]) && Tail(s[3]) then 4 else 0
    else 0
  }

  predicate ValidUtf8(s: Bytes) {
    s == [] || (CharLen(s) > 0 && ValidUtf8(s[CharLen(s)..]))
  }

  lemma CharLenOfMore(a: Bytes, b: Bytes)
    ensures CharLen(a) > 0 ==> CharLen(a + b) == CharLen(a)
    ensures 0 < CharLen(a + b) <= |a| ==> CharLen(a) == CharLen(a + b)
  {}

  /** After valid text, the whole is valid exactly when the rest is. */
  lemma {:induction false} ValidAfterValid(a: Bytes, b: Bytes)
    requires ValidUtf8(a)
    ensures ValidUtf8(a + b) <==> ValidUtf8(b)
  {
    if a == [] {
      assert a + b == b;
    } else {
      var n := CharLen(a);
      CharLenOfMore(a, b);
      assert (a + b)[n..] == a[n..] + b;
      ValidAfterValid(a[n..], b);
    }
  }

  /** Before valid text, the whole is valid exactly when the start is. */
  lemma {:induction false} ValidBeforeValid(a: Bytes, b: Bytes)
    requires ValidUtf8(b)
    ensures ValidUtf8(a + b) <==> ValidUtf8(a)
  {
    if ValidUtf8(a) {
      ValidAfterValid(a, b);
    } else if CharLen(a + b) > 0 {
      var n := CharLen(a + b);
      CharLenOfMore(a, b);
      forall i | 0 <= i < |b| ensures (a + b)[|a| + i] == b[i] {}
      if n <= |a| {
        assert (a + b)[n..] == a[n..] + b;
        ValidBeforeValid(a[n..], b);
      }
    }
  }

  // ---------------------------------------------------------------- encoding (RFC 3629, section 3)

  predicate Scalar(c: int) {
    0 <= c < 0xD800 || 0xE000 <= c < 0x110000
  }

  function Encode(c: int): (s: Bytes)
    requires Scalar(c)
    ensures 1 <= |s| <= 4
  {
    if c < 0x80 then [c as byte]
    else if c < 0x800 then [(0xC0 + c / 64) as byte, (0x80 + c % 64) as byte]
    else if c < 0x1_0000 then [(0xE0 + c / 64 / 64) as byte, (0x80 + c / 64 % 64) as byte, (0x80 + c % 64) as byte]
    else
      [(0xF0 + c / 64 / 64 / 64) as byte, (0x80 + c / 64 / 64 % 64) as byte, (0x80 + c / 64 % 64) as byte,
       (0x80 + c % 64) as byte]
  }

  predicate AllScalar(scalars: seq<int>) {
    forall i :: 0 <= i < |scalars| ==> Scalar(scalars[i])
  }

  function EncodeAll(scalars: seq<int>): Bytes
    requires AllScalar(scalars)
  {
    if scalars == [] then [] else Encode(scalars[0]) + EncodeAll(scalars[1..])
  }

  /** The scalar value of the character that starts the text. */
  function Decode(s: Bytes): int
    requires CharLen(s) > 0
  {
    match CharLen(s)
    case 1 => s[0] as int
    case 2 => Shift(s[0] as int - 0xC0, s[1])
    case 3 => Shift(Shift(s[0] as int - 0xE0, s[1]), s[2])
    case _ => Shift(Shift(Shift(s[0] as int - 0xF0, s[1]), s[2]), s[3])
  }

  /** Six more bits, from a tail byte. */
  function Shift(high: int, tail: byte): (c: int)
    ensures Tail(tail) ==> c / 64 == high && c % 64 == tail as int - 0x80
  {
    high * 64 + (tail as int - 0x80)
  }

  lemma EncodedIsChar(c: int, rest: Bytes)
    requires Scalar(c)
    ensures CharLen(Encode(c) + rest) == |Encode(c)|
  {
    var s := Encode(c) + rest;
    forall i | 0 <= i < |Encode(c)| ensures s[i] == Encode(c)[i] {}
  }

  lemma CharIsEncoded(s: Bytes)
    requires CharLen(s) > 0
    ensures Scalar(Decode(s)) && Encode(Decode(s)) == s[..CharLen(s)]
  {
    match CharLen(s)
    case 3 => ThreeBytes(s);
    case 4 => FourBytes(s);
    case _ =>
  }

  lemma ThreeBytes(s: Bytes)
    requires CharLen(s) == 3
    ensures Scalar(Decode(s)) && Encode(Decode(s)) == s[..3]
  {
    var c := Decode(s);
    assert c / 64 == Shift(s[0] as int - 0xE0, s[1]);
    assert c >= 0x800 && c < 0x1_0000;
  }

  lemma FourBytes(s: Bytes)
    requires CharLen(s) == 4
    ensures Scalar(Decode(s)) && Encode(Decode(s)) == s[..4]
  {
    var c, d := Decode(s), Shift(Shift(s[0] as int - 0xF0, s[1]), s[2]);
    assert c / 64 == d && d / 64 == Shift(s[0] as int - 0xF0, s[1]);
    assert c >= 0x1_0000 && c < 0x11_0000;
  }

  /** The valid texts are exactly the encodings of sequences of scalar values. */
  lemma ValidIsEncoded(s: Bytes)
    ensures ValidUtf8(s) <==>
              exists scalars :: AllScalar(scalars) && EncodeAll(scalars) == s
  {
    if ValidUtf8(s) { var scalars := DecodeAll(s); }
    forall scalars | AllScalar(scalars) && EncodeAll(scalars) == s ensures ValidUtf8(s)
    {
      EncodedIsValid(scalars);
    }
  }

  lemma {:induction false} DecodeAll(s: Bytes) returns (scalars: seq<int>)
    requires ValidUtf8(s)
    ensures AllScalar(scalars) && EncodeAll(scalars) == s
  {
    if s == [] {
      return [];
    }
    CharIsEncoded(s);
    var rest := DecodeAll(s[CharLen(s)..]);
    scalars := Prepend(Decode(s), rest, s, CharLen(s));
  }

  lemma Prepend(c: int, rest: seq<int>, s: Bytes, n: nat) returns (scalars: seq<int>)
    requires Scalar(c) && AllScalar(rest) && n <= |s| && Encode(c) == s[..n] && EncodeAll(rest) == s[n..]
    ensures AllScalar(scalars) && EncodeAll(scalars) == s
  {
    scalars := [c] + rest;
    assert scalars[1..] == rest && s == s[..n] + s[n..];
  }

  lemma {:induction false} EncodedIsValid(scalars: seq<int>)
    requires AllScalar(scalars)
    ensures ValidUtf8(EncodeAll(scalars))
  {
    if scalars != [] {
      EncodedIsChar(scalars[0], EncodeAll(scalars[1..]));
      EncodedIsValid(scalars[1..]);
      assert EncodeAll(scalars)[|Encode(scalars[0])|..] == EncodeAll(scalars[1..]);
    }
  }

  // ---------------------------------------------------------------- the tail of a text

  function ValidSuffix(s: Bytes): Bytes {
    if ValidUtf8(s) then s else ValidSuffix(s[1..])
  }

  function Bounded(s: Bytes, max: int): Bytes {
    if max <= 0 || |s| <= max then s else ValidSuffix(s[|s| - max..])
  }

  ghost predicate IsSuffix(r: Bytes, s: Bytes) {
    |r| <= |s| && s[|s| - |r|..] == r
  }

  /** `r` is the longest valid tail of `s` within the bound. */
  ghost predicate LongestTail(valid: Bytes -> bool, r: Bytes, s: Bytes, max: int) {
    && IsSuffix(r, s) && valid(r) && |r| <= max
    && forall u :: IsSuffix(u, s) && valid(u) && |u| <= max ==> |u| <= |r|
  }

  lemma {:induction false} ValidSuffixIsLongest(s: Bytes)
    ensures LongestTail(ValidUtf8, ValidSuffix(s), s, |s|)
  {
    if ValidUtf8(s) {
      assert s[0..] == s;
    } else {
      ValidSuffixIsLongest(s[1..]);
      TailOfShorter(ValidUtf8, ValidSuffix(s), s);
    }
  }

  lemma TailOfShorter(valid: Bytes -> bool, r: Bytes, s: Bytes)
    requires s != [] && !valid(s) && LongestTail(valid, r, s[1..], |s| - 1)
    ensures LongestTail(valid, r, s, |s|)
  {}

  /** A text within the bound is left alone; of a longer one, the longest valid tail within the bound is kept. */
  lemma BoundedIsLongest(s: Bytes, max: int)
    requires max > 0 && ValidUtf8(s)
    ensures LongestTail(ValidUtf8, Bounded(s, max), s, max)
  {
    if |s| > max { CutIsLongest(s, max); } else { WholeIsLongest(ValidUtf8, s, max); }
  }

  lemma CutIsLongest(s: Bytes, max: int)
    requires 0 < max < |s|
    ensures LongestTail(ValidUtf8, ValidSuffix(s[|s| - max..]), s, max)
  {
    ValidSuffixIsLongest(s[|s| - max..]);
    TailOfTail(ValidUtf8, ValidSuffix(s[|s| - max..]), s, max);
  }

  lemma WholeIsLongest(valid: Bytes -> bool, s: Bytes, max: int)
    requires valid(s) && |s| <= max
    ensures LongestTail(valid, s, s, max)
  {}

  lemma TailOfTail(valid: Bytes -> bool, r: Bytes, s: Bytes, max: int)
    requires 0 < max < |s| && LongestTail(valid, r, s[|s| - max..], max)
    ensures LongestTail(valid, r, s, max)
  {}

  /** Bounding what was already bounded, once more text has arrived, is bounding it all at once. */
  lemma BoundedInSteps(s: Bytes, delta: Bytes, max: int)
    requires ValidUtf8(s) && ValidUtf8(delta)
    ensures Bounded(Bounded(s, max) + delta, max) == Bounded(s + delta, max)
  {
    if max > 0 {
      var r := Bounded(s, max);
      BoundedIsLongest(s, max);
      ValidCancels(delta);
      assert ValidUtf8(s + delta) && ValidUtf8(r + delta);
      BoundedIsLongest(s + delta, max);
      BoundedIsLongest(r + delta, max);
      TailInSteps(ValidUtf8, s, delta, r, Bounded(r + delta, max), max);
      OneLongestTail(ValidUtf8, Bounded(r + delta, max), Bounded(s + delta, max), s + delta, max);
    }
  }

  ghost predicate CancelsAfter(valid: Bytes -> bool, s: Bytes) {
    forall a :: valid(a) <==> valid(a + s)
  }

  lemma ValidCancels(s: Bytes)
    requires ValidUtf8(s)
    ensures CancelsAfter(ValidUtf8, s)
  {
    forall a ensures ValidUtf8(a) <==> ValidUtf8(a + s) { ValidBeforeValid(a, s); }
  }

  lemma SplitTail(r: Bytes, s: Bytes, delta: Bytes)
    requires IsSuffix(r, s)
    ensures s + delta == s[..|s| - |r|] + (r + delta)
  {
    assert s == s[..|s| - |r|] + r;
  }

  lemma TailInSteps(valid: Bytes -> bool, s: Bytes, delta: Bytes, r: Bytes, part: Bytes, max: int)
    requires LongestTail(valid, r, s, max) && LongestTail(valid, part, r + delta, max)
    requires CancelsAfter(valid, delta)
    ensures LongestTail(valid, part, s + delta, max)
  {
    var w := s[..|s| - |r|];
    SplitTail(r, s, delta);
    SuffixOfTail(w, r + delta, part);
    forall u | IsSuffix(u, s + delta) && valid(u) && |u| <= max ensures |u| <= |part| {
      NotBeyond(valid, u, s, delta, r, max);
      TailOfSuffix(w, r + delta, u);
    }
  }

  lemma NotBeyond(valid: Bytes -> bool, u: Bytes, s: Bytes, delta: Bytes, r: Bytes, max: int)
    requires LongestTail(valid, r, s, max) && IsSuffix(u, s + delta) && valid(u) && |u| <= max
    requires CancelsAfter(valid, delta)
    ensures |u| <= |r + delta|
  {
    if |u| >= |delta| {
      SplitSuffix(u, s, delta);
      assert valid(u[..|u| - |delta|]);
    }
  }

  lemma SplitSuffix(u: Bytes, s: Bytes, delta: Bytes)
    requires IsSuffix(u, s + delta) && |u| >= |delta|
    ensures u == u[..|u| - |delta|] + delta && IsSuffix(u[..|u| - |delta|], s)
  {}

  lemma OneLongestTail(valid: Bytes -> bool, a: Bytes, b: Bytes, s: Bytes, max: int)
    requires LongestTail(valid, a, s, max) && LongestTail(valid, b, s, max)
    ensures a == b
  {}

  lemma SuffixOfTail(a: Bytes, b: Bytes, u: Bytes)
    requires IsSuffix(u, b)
    ensures IsSuffix(u, a + b)
  {}

  lemma TailOfSuffix(a: Bytes, b: Bytes, u: Bytes)
    requires IsSuffix(u, a + b) && |u| <= |b|
    ensures IsSuffix(u, b)
  {}

  function Concat(deltas: seq<Bytes>): Bytes {
    if deltas == [] then [] else Concat(deltas[..|deltas| - 1]) + deltas[|deltas| - 1]
  }

  /** The preview after every delta was appended and the result bounded. */
  function Streamed(deltas: seq<Bytes>, max: int): Bytes {
    if deltas == [] then []
    else Bounded(Streamed(deltas[..|deltas| - 1], max) + deltas[|deltas| - 1], max)
  }

  ghost predicate AllValid(deltas: seq<Bytes>) {
    forall i :: 0 <= i < |deltas| ==> ValidUtf8(deltas[i])
  }

  lemma {:induction false} ConcatIsValid(deltas: seq<Bytes>)
    requires AllValid(deltas)
    ensures ValidUtf8(Concat(deltas))
  {
    if deltas != [] {
      ConcatIsValid(deltas[..|deltas| - 1]);
      ValidAfterValid(Concat(deltas[..|deltas| - 1]), deltas[|deltas| - 1]);
    }
  }

  /** However a text is split into deltas, the preview built from them is the bounded whole. */
  lemma {:induction false} StreamingIsOneShot(deltas: seq<Bytes>, max: int)
    requires AllValid(deltas)
    ensures Streamed(deltas, max) == Bounded(Concat(deltas), max)
  {
    if deltas != [] {
      var earlier, delta := deltas[..|deltas| - 1], deltas[|deltas| - 1];
      StreamingIsOneShot(earlier, max);
      ConcatIsValid(earlier);
      BoundedInSteps(Concat(earlier), delta, max);
    }
  }

  // ---------------------------------------------------------------- the head of a text

  function ValidPrefix(s: Bytes): Bytes {
    if ValidUtf8(s) then s else ValidPrefix(s[..|s| - 1])
  }

  function BoundedPrefix(s: Bytes, max: int): Bytes {
    if max <= 0 then [] else if |s| <= max then s else ValidPrefix(s[..max])
  }

  /** `r` is the longest valid head of `s` within the bound. */
  ghost predicate LongestHead(valid: Bytes -> bool, r: Bytes, s: Bytes, max: int) {
    && r <= s && valid(r) && |r| <= max
    && forall u :: u <= s && valid(u) && |u| <= max ==> |u| <= |r|
  }

  lemma {:induction false} ValidPrefixIsLongest(s: Bytes)
    ensures LongestHead(ValidUtf8, ValidPrefix(s), s, |s|)
  {
    if !ValidUtf8(s) {
      ValidPrefixIsLongest(s[..|s| - 1]);
      HeadOfHead(ValidUtf8, ValidPrefix(s), s, |s| - 1);
    }
  }

  lemma HeadOfHead(valid: Bytes -> bool, r: Bytes, s: Bytes, max: int)
    requires 0 <= max < |s| && LongestHead(valid, r, s[..max], max)
    ensures LongestHead(valid, r, s, max)
    ensures max == |s| - 1 && !valid(s) ==> LongestHead(valid, r, s, |s|)
  {
    forall u | u <= s && |u| <= max ensures u <= s[..max] {
      assert u == s[..|u|] == s[..max][..|u|];
    }
    forall u | u <= s && |u| == |s| ensures u == s {}
  }

  /** Within any bound there is a character boundary at most three bytes below it. */
  lemma {:induction false} BoundaryNear(s: Bytes, max: nat) returns (head: Bytes, rest: Bytes)
    requires ValidUtf8(s) && max <= |s|
    ensures s == head + rest && ValidUtf8(head) && |head| <= max <= |head| + 3
  {
    var n := CharLen(s);
    if n > max || s == [] {
      return [], s;
    }
    var first, more := s[..n], s[n..];
    assert s == first + more;
    FirstCharIsValid(s);
    head, rest := BoundaryNear(more, max - n);
    ValidAfterValid(first, head);
    head := first + head;
  }

  /** The cut keeps the longest valid prefix within the bound, and gives up at most three bytes for it. */
  lemma BoundedPrefixIsLongest(s: Bytes, max: int)
    requires max >= 0 && ValidUtf8(s)
    ensures LongestHead(ValidUtf8, BoundedPrefix(s, max), s, max)
    ensures |s| > max ==> |BoundedPrefix(s, max)| + 3 >= max
  {
    if 0 < max < |s| {
      ValidPrefixIsLongest(s[..max]);
      HeadOfHead(ValidUtf8, BoundedPrefix(s, max), s, max);
      var head, rest := BoundaryNear(s, max);
      assert head <= s;
    }
  }

  /** The preview of the head: each delta is cut to the room that is left. */
  function Accumulated(deltas: seq<Bytes>, max: int): Bytes {
    if deltas == [] then []
    else
      Accumulate(Accumulated(deltas[..|deltas| - 1], max), deltas[|deltas| - 1], max)
  }

  function Accumulate(preview: Bytes, delta: Bytes, max: int): Bytes {
    if max <= |preview| then preview else preview + BoundedPrefix(delta, max - |preview|)
  }

  lemma AccumulateKeepsValid(preview: Bytes, delta: Bytes, max: int)
    requires ValidUtf8(preview) && |preview| <= max && ValidUtf8(delta)
    ensures ValidUtf8(Accumulate(preview, delta, max)) && |Accumulate(preview, delta, max)| <= max
  {
    if |preview| < max {
      var part := BoundedPrefix(delta, max - |preview|);
      assert ValidUtf8(part) && |part| <= max - |preview| by { BoundedPrefixIsLongest(delta, max - |preview|); }
      ValidAfterValid(preview, part);
      assert |preview + part| <= max;
    }
  }

  /** The accumulated preview is always valid and within its bound. */
  lemma {:induction false} AccumulatedIsValid(deltas: seq<Bytes>, max: int)
    requires AllValid(deltas) && max >= 0
    ensures ValidUtf8(Accumulated(deltas, max)) && |Accumulated(deltas, max)| <= max
  {
    if deltas != [] {
      AccumulatedIsValid(deltas[..|deltas| - 1], max);
      AccumulateKeepsValid(Accumulated(deltas[..|deltas| - 1], max), deltas[|deltas| - 1], max);
    }
  }

  /** Cutting each delta to the room left is not cutting the whole: after a wide character was left
      out, a narrower one can still slip in. */
  lemma AccumulatingCanSkip()
    ensures AllValid([[0x61], [0xC3, 0xA9], [0x61]])
    ensures |Accumulated([[0x61], [0xC3, 0xA9], [0x61]], 2)| == 2
    ensures |BoundedPrefix(Concat([[0x61], [0xC3, 0xA9], [0x61]]), 2)| == 1
  {
    AsciiIsValid(0x61);
    WideIsValid();
    CutExample();
    HeadOfExample();
  }

  lemma WideIsValid()
    ensures ValidUtf8([0xC3, 0xA9])
  {}

  lemma CutExample()
    ensures Accumulated([[0x61], [0xC3, 0xA9]], 2) == [0x61]
    ensures Accumulated([[0x61], [0xC3, 0xA9], [0x61]], 2) == [0x61, 0x61]
    ensures Concat([[0x61], [0xC3, 0xA9]]) == [0x61, 0xC3, 0xA9]
    ensures Concat([[0x61], [0xC3, 0xA9], [0x61]]) == [0x61, 0xC3, 0xA9, 0x61]
  {
    var wide: Bytes, one: seq<Bytes>, two: seq<Bytes> := [0xC3, 0xA9], [[0x61]], [[0x61], [0xC3, 0xA9]];
    var three: seq<Bytes> := [[0x61], wide, [0x61]];
    assert one[..0] == [] && two[..1] == one && three[..2] == two;
    assert Accumulated(one, 2) == [0x61] && Concat(one) == [0x61];
    assert BoundedPrefix(wide, 1) == [] by { assert wide[..1] == [0xC3] && wide[..1][..0] == []; }
  }

  lemma HeadOfExample()
    ensures |BoundedPrefix([0x61, 0xC3, 0xA9, 0x61], 2)| == 1
  {}

  lemma AsciiIsValid(b: byte)
    requires b <= 0x7F
    ensures ValidUtf8([b])
  {}

  /** Whether some of the delta fits in the room that is left. */
  predicate SomethingFits(delta: Bytes, room: int) {
    delta != [] && CharLen(delta) <= room
  }

  /** No delta gets anything in once the text has outgrown the bound. */
  ghost predicate NothingSlipsIn(deltas: seq<Bytes>, max: int) {
    deltas == [] ||
    (var earlier := deltas[..|deltas| - 1];
     && NothingSlipsIn(earlier, max)
     && (|Concat(earlier)| > max ==> !SomethingFits(deltas[|deltas| - 1], max - |BoundedPrefix(Concat(earlier), max)|)))
  }

  lemma NothingFits(delta: Bytes, room: int)
    requires ValidUtf8(delta) && room >= 0
    ensures BoundedPrefix(delta, room) == [] <==> !SomethingFits(delta, room)
  {
    BoundedPrefixIsLongest(delta, room);
    if SomethingFits(delta, room) {
      FirstCharIsValid(delta);
    } else {
      FirstCharOfHead(delta, BoundedPrefix(delta, room));
    }
  }

  lemma FirstCharIsValid(s: Bytes)
    requires CharLen(s) > 0
    ensures s[..CharLen(s)] <= s && ValidUtf8(s[..CharLen(s)])
  {}

  lemma FirstCharOfHead(s: Bytes, r: Bytes)
    requires r <= s && ValidUtf8(r)
    ensures r != [] ==> 0 < CharLen(s) <= |r|
  {}

  /** Once a text has outgrown the bound, more text does not change its head. */
  lemma HeadIsSettled(s: Bytes, delta: Bytes, max: int)
    requires |s| > max >= 0
    ensures BoundedPrefix(s + delta, max) == BoundedPrefix(s, max)
  {
    assert (s + delta)[..max] == s[..max];
  }

  lemma {:induction false} ValidPrefixAfter(s: Bytes, t: Bytes)
    requires ValidUtf8(s)
    ensures ValidPrefix(s + t) == s + ValidPrefix(t)
  {
    ValidAfterValid(s, t);
    if !ValidUtf8(t) {
      assert (s + t)[..|s + t| - 1] == s + t[..|t| - 1];
      ValidPrefixAfter(s, t[..|t| - 1]);
    }
  }

  /** While the earlier text fits, a delta is cut as the whole would be. */
  lemma CutWhereWholeIs(s: Bytes, delta: Bytes, max: int)
    requires ValidUtf8(s) && |s| <= max
    ensures BoundedPrefix(s + delta, max) == s + BoundedPrefix(delta, max - |s|)
  {
    if |s + delta| > max {
      assert (s + delta)[..max] == s + delta[..max - |s|];
      ValidPrefixAfter(s, delta[..max - |s|]);
    }
  }

  /** Exactly then is the accumulated preview the head of the whole text; and while the text fits it
      is the text. */
  lemma {:induction false} AccumulatingIsOneShot(deltas: seq<Bytes>, max: int)
    requires AllValid(deltas) && max >= 0
    ensures Accumulated(deltas, max) == BoundedPrefix(Concat(deltas), max) <==> NothingSlipsIn(deltas, max)
    ensures |Concat(deltas)| <= max ==> Accumulated(deltas, max) == Concat(deltas)
    ensures |BoundedPrefix(Concat(deltas), max)| <= |Accumulated(deltas, max)|
  {
    if deltas != [] {
      var before, delta := deltas[..|deltas| - 1], deltas[|deltas| - 1];
      AccumulatingIsOneShot(before, max);
      AccumulatedIsValid(before, max);
      ConcatIsValid(before);
      if |Concat(before)| <= max {
        WhileItFits(Concat(before), delta, max);
      } else {
        AfterTheCut(Concat(before), Accumulated(before, max), delta, max);
      }
    }
  }

  lemma WhileItFits(whole: Bytes, delta: Bytes, max: int)
    requires ValidUtf8(whole) && |whole| <= max
    ensures Accumulate(whole, delta, max) == BoundedPrefix(whole + delta, max)
    ensures |whole + delta| <= max ==> Accumulate(whole, delta, max) == whole + delta
    ensures BoundedPrefix(whole, max) == whole
  {
    CutWhereWholeIs(whole, delta, max);
  }

  lemma AfterTheCut(whole: Bytes, earlier: Bytes, delta: Bytes, max: int)
    requires |whole| > max >= 0 && ValidUtf8(delta)
    requires |BoundedPrefix(whole, max)| <= |earlier| <= max
    ensures Accumulate(earlier, delta, max) == BoundedPrefix(whole + delta, max)
            <==> earlier == BoundedPrefix(whole, max) && !SomethingFits(delta, max - |earlier|)
    ensures |BoundedPrefix(whole + delta, max)| <= |Accumulate(earlier, delta, max)|
  {
    HeadIsSettled(whole, delta, max);
    NothingFits(delta, max - |earlier|);
    assert |Accumulate(earlier, delta, max)| == |earlier| + |BoundedPrefix(delta, max - |earlier|)|;
  }

  // ---------------------------------------------------------------- the two loops

  method BoundedUTF8(value: Bytes, maximum: int) returns (r: Bytes)
    ensures r == Bounded(value, maximum)
  {
    if maximum <= 0 || |value| <= maximum {
      return value;
    }
    ghost var suffix := ValidSuffix(value[|value| - maximum..]);
    r := value[|value| - maximum..];
    while |r| > 0 && !ValidUtf8(r)
      invariant ValidSuffix(r) == suffix
    {
      r := r[1..];
    }
  }

  method BoundedUTF8Prefix(value: Bytes, maxBytes: int) returns (r: Bytes)
    ensures r == BoundedPrefix(value, maxBytes)
  {
    if maxBytes <= 0 {
      return [];
    }
    if |value| <= maxBytes {
      return value;
    }
    var end := maxBytes;
    while end > 0 && !ValidUtf8(value[..end])
      invariant 0 <= end <= maxBytes
      invariant ValidPrefix(value[..end]) == ValidPrefix(value[..maxBytes])
    {
      assert value[..end][..end - 1] == value[..end - 1];
      end := end - 1;
    }
    return value[..end];
  }

  /** The OpenCode preview: `deltas` is what was streamed since the turn began. */
  class TailPreview {
    const max: int
    var preview: Bytes
    ghost var deltas: seq<Bytes>

    constructor (max: int)
      ensures this.max == max && deltas == [] && Valid()
    {
      this.max, preview, deltas := max, [], [];
    }

    ghost predicate Valid()
      reads this
    {
      AllValid(deltas) && preview == Streamed(deltas, max)
    }

    method Append(delta: Bytes)
      requires Valid() && ValidUtf8(delta)
      modifies this
      ensures Valid() && deltas == old(deltas) + [delta]
      ensures preview == Bounded(Concat(deltas), max)
    {
      preview := BoundedUTF8(preview + delta, max);
      deltas := deltas + [delta];
      assert deltas[..|deltas| - 1] == old(deltas);
      StreamingIsOneShot(deltas, max);
    }
  }

  /** The Claude preview: deltas accumulate until the assistant's own record settles the text. */
  class HeadPreview {
    const max: int
    var preview: Bytes

    constructor (max: int)
      requires max > 0
      ensures this.max == max && preview == []
    {
      this.max, preview := max, [];
    }

    method Append(delta: Bytes)
      requires ValidUtf8(preview) && ValidUtf8(delta) && |preview| <= max
      modifies this
      ensures ValidUtf8(preview) && |preview| <= max && old(preview) <= preview
      ensures preview == Accumulate(old(preview), delta, max)
    {
      var remaining := max - |preview|;
      if remaining <= 0 {
        return;
      }
      AccumulateKeepsValid(preview, delta, max);
      var more := BoundedUTF8Prefix(delta, remaining);
      preview := preview + more;
    }

    /** The record shows the longest head of its text, whatever the deltas had let slip in. */
    method Settle(text: Bytes)
      modifies this
      ensures text != [] ==> preview == BoundedPrefix(text, max)
      ensures text == [] ==> preview == old(preview)
    {
      var head := BoundedUTF8Prefix(text, max);
      if text != [] && head != preview {
        preview := head;
      }
    }
  }
}
