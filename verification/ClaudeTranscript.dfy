/** Reading a transcript that may still grow, as internal/claude/transcript.go does: only complete
    lines count, and every record gets an identity that later lines cannot change. */
module ClaudeTranscript {
  import opened Options

  // ---------------------------------------------------------------- complete lines

  /** The index of the first newline, or the length of the text. */
  function NewlineAt(data: string): (n: nat)
    ensures n <= |data| && (n < |data| ==> data[n] == '\n')
    ensures forall i :: 0 <= i < n ==> data[i] != '\n'
  {
    if data == "" || data[0] == '\n' then 0 else 1 + NewlineAt(data[1..])
  }

  function TrimReturn(line: string): string {
    if line != "" && line[|line| - 1] == '\r' then line[..|line| - 1] else line
  }

  /** The newline-terminated lines; what follows the last newline is left for later. */
  function Lines(data: string): seq<string>
    decreases |data|
  {
    var n := NewlineAt(data);
    if n == |data| then [] else [TrimReturn(data[..n])] + Lines(data[n + 1..])
  }

  /** scanCompleteLines, which a scanner calls with what it has buffered. */
  method ScanCompleteLines(data: string, atEOF: bool) returns (advance: nat, token: Option<string>)
    ensures token.Some? <==> NewlineAt(data) < |data|
    ensures token.Some? ==> advance == NewlineAt(data) + 1 && token.value == TrimReturn(data[..NewlineAt(data)])
    ensures token.None? ==> advance == if atEOF then |data| else 0
  {
    var index := 0;
    while index < |data| && data[index] != '\n'
      invariant index <= |data| && forall i :: 0 <= i < index ==> data[i] != '\n'
    {
      index := index + 1;
    }
    if index < |data| {
      var line := data[..index];
      if |line| > 0 && line[|line| - 1] == '\r' {
        line := line[..|line| - 1];
      }
      return index + 1, Some(line);
    }
    return if atEOF then |data| else 0, None;
  }

  /** How a scanner reads a file in windows of any sizes: it gets the complete lines, and no others. */
  method ScanAll(file: string, windows: seq<nat>) returns (tokens: seq<string>)
    ensures tokens == Lines(file)
  {
    tokens := [];
    var buffer, unread, w := "", file, 0;
    ghost var left := Lines(file);
    assert buffer + unread == file;
    while true
      invariant left == Lines(buffer + unread) && Lines(file) == tokens + left && w <= |windows|
      decreases |buffer| + |unread|, |windows| - w, |unread|
    {
      var advance, token := ScanCompleteLines(buffer, unread == "");
      if token.Some? {
        WindowDoesNotMatter(buffer, unread);
        buffer := buffer[advance..];
        Regroup(tokens, token.value, Lines(buffer + unread));
        tokens, left := tokens + [token.value], Lines(buffer + unread);
      } else if unread == "" {
        assert buffer + unread == buffer;
        assert Lines(buffer) == [];
        return;
      } else {
        var size := |unread|;
        if w < |windows| {
          size := if windows[w] < size then windows[w] else size;
          w := w + 1;
        }
        buffer, unread := Refill(buffer, unread, size);
      }
    }
  }

  method Refill(buffer: string, unread: string, size: nat) returns (more: string, rest: string)
    requires size <= |unread|
    ensures more + rest == buffer + unread && |rest| == |unread| - size
  {
    more, rest := buffer + unread[..size], unread[size..];
  }

  lemma NewlineOfMore(data: string, more: string)
    requires NewlineAt(data) < |data|
    ensures NewlineAt(data + more) == NewlineAt(data)
  {
    var n, m := NewlineAt(data), NewlineAt(data + more);
    assert (data + more)[n] == '\n';
    assert m <= n;
    assert m < |data| && (data + more)[m] == data[m];
  }

  /** The first line found in a window is the first line of the whole. */
  lemma WindowDoesNotMatter(window: string, rest: string)
    requires NewlineAt(window) < |window|
    ensures NewlineAt(window + rest) == NewlineAt(window)
    ensures var n := NewlineAt(window);
            Lines(window + rest) == [TrimReturn(window[..n])] + Lines(window[n + 1..] + rest)
  {
    var n := NewlineAt(window);
    NewlineOfMore(window, rest);
    assert (window + rest)[..n] == window[..n] && (window + rest)[n + 1..] == window[n + 1..] + rest;
  }

  lemma Regroup<T>(a: seq<T>, x: T, b: seq<T>)
    ensures a + ([x] + b) == a + [x] + b
  {}

  lemma FirstLine(data: string, more: string)
    requires NewlineAt(data) < |data|
    ensures var rest := data[NewlineAt(data) + 1..];
            Lines(rest) <= Lines(rest + more) ==> Lines(data) <= Lines(data + more)
  {
    WindowDoesNotMatter(data, more);
  }

  /** Whatever is appended, the lines already complete stay as they are. */
  lemma {:induction false} LinesOnlyGrow(data: string, more: string)
    ensures Lines(data) <= Lines(data + more)
    decreases |data|
  {
    var n := NewlineAt(data);
    if n < |data| {
      FirstLine(data, more);
      LinesOnlyGrow(data[n + 1..], more);
    }
  }

  // ---------------------------------------------------------------- record identities

  function Digit(d: nat): char
    requires d < 10
  {
    "0123456789"[d]
  }

  function Decimal(n: nat): (s: string)
    ensures s != "" && ':' !in s
  {
    if n < 10 then [Digit(n)] else Decimal(n / 10) + [Digit(n % 10)]
  }

  lemma {:induction false} DecimalIsInjective(m: nat, n: nat)
    requires Decimal(m) == Decimal(n)
    ensures m == n
  {
    var a, b := Decimal(m), Decimal(n);
    assert a[|a| - 1] == Digit(m % 10) && b[|b| - 1] == Digit(n % 10);
    assert m % 10 == n % 10;
    if m >= 10 && n >= 10 {
      assert a[..|a| - 1] == Decimal(m / 10) && b[..|b| - 1] == Decimal(n / 10);
      DecimalIsInjective(m / 10, n / 10);
    } else {
      assert m < 10 ==> |a| == 1;
      assert n < 10 ==> |b| == 1;
      assert m >= 10 ==> |a| > 1;
      assert n >= 10 ==> |b| > 1;
    }
  }

  function Labelled(base: string, count: nat): string {
    base + ":" + Decimal(count)
  }

  /** The last colon separates the base from the count, whatever the base contains. */
  lemma LabelledIsInjective(a: string, m: nat, b: string, n: nat)
    requires Labelled(a, m) == Labelled(b, n)
    ensures a == b && m == n
  {
    var s, t := Labelled(a, m), Labelled(b, n);
    LastColon(a, m);
    LastColon(b, n);
    assert |a| == |b|;
    assert a == s[..|a|] && b == t[..|b|];
    assert Decimal(m) == s[|a| + 1..] && Decimal(n) == t[|b| + 1..];
    DecimalIsInjective(m, n);
  }

  lemma LastColon(base: string, count: nat)
    ensures |base| < |Labelled(base, count)| && Labelled(base, count)[|base|] == ':'
    ensures forall k :: |base| < k < |Labelled(base, count)| ==> Labelled(base, count)[k] != ':'
  {
    forall k | |base| < k < |Labelled(base, count)|
      ensures Labelled(base, count)[k] == Decimal(count)[k - |base| - 1]
    {}
  }

  function Count(bases: seq<string>, base: string): nat {
    if bases == [] then 0
    else Count(bases[..|bases| - 1], base) + if bases[|bases| - 1] == base then 1 else 0
  }

  /** The identity of a record: its base, and how many records up to it share that. */
  function Identity(bases: seq<string>, i: nat): string
    requires i < |bases|
  {
    Labelled(bases[i], Count(bases[..i + 1], bases[i]))
  }

  lemma {:induction false} CountGrows(bases: seq<string>, i: nat, j: nat, base: string)
    requires i <= j <= |bases|
    ensures Count(bases[..i], base) <= Count(bases[..j], base)
  {
    if i < j {
      CountGrows(bases, i, j - 1, base);
      assert bases[..j][..j - 1] == bases[..j - 1];
    }
  }

  function Identities(bases: seq<string>): (r: seq<string>)
    ensures |r| == |bases|
  {
    seq(|bases|, i requires 0 <= i < |bases| => Identity(bases, i))
  }

  /** No two records have the same identity. */
  lemma IdentitiesAreDistinct(bases: seq<string>, i: nat, j: nat)
    requires i < j < |bases|
    ensures Identity(bases, i) != Identity(bases, j)
  {
    CountGrows(bases, i + 1, j, bases[j]);
    var upTo := bases[..j + 1];
    assert upTo[..j] == bases[..j];
    assert Count(upTo, bases[j]) == Count(bases[..j], bases[j]) + 1;
    if Identity(bases, i) == Identity(bases, j) {
      LabelledIsInjective(bases[i], Count(bases[..i + 1], bases[i]), bases[j], Count(upTo, bases[j]));
    }
  }

  // ---------------------------------------------------------------- parsing

  /** A line that is a record of the session. */
  datatype Parsed = Parsed(uuid: string, raw: string)

  function Base(p: Parsed, digest: string -> string): string {
    if p.uuid != "" then p.uuid else "raw:" + digest(p.raw)
  }

  function Records(lines: seq<string>, parse: string -> Option<Parsed>): seq<Parsed> {
    if lines == [] then []
    else
      var p := parse(lines[|lines| - 1]);
      Records(lines[..|lines| - 1], parse) + if p.Some? then [p.value] else []
  }

  function Bases(records: seq<Parsed>, digest: string -> string): (r: seq<string>)
    ensures |r| == |records|
  {
    seq(|records|, i requires 0 <= i < |records| => Base(records[i], digest))
  }

  function IdentityIn(data: string, i: nat, parse: string -> Option<Parsed>, digest: string -> string): string
    requires i < |Records(Lines(data), parse)|
  {
    Identity(Bases(Records(Lines(data), parse), digest), i)
  }

  ghost predicate Counts(identityCounts: map<string, nat>, bases: seq<string>) {
    forall b :: (if b in identityCounts then identityCounts[b] else 0) == Count(bases, b)
  }

  /** Count one more record of a base, and label it. */
  method Number(identityCounts: map<string, nat>, base: string, ghost bases: seq<string>)
    returns (counts: map<string, nat>, identity: string)
    requires Counts(identityCounts, bases)
    ensures Counts(counts, bases + [base]) && Identities(bases + [base]) == Identities(bases) + [identity]
  {
    OneMoreRecord(bases, base);
    var count := (if base in identityCounts then identityCounts[base] else 0) + 1;
    return identityCounts[base := count], Labelled(base, count);
  }

  /** The scan loop: skip the lines that are no record, and number the records of each base. */
  method ParseTranscript(lines: seq<string>, parse: string -> Option<Parsed>, digest: string -> string)
    returns (records: seq<Parsed>, identities: seq<string>)
    ensures records == Records(lines, parse) && |identities| == |records|
    ensures identities == Identities(Bases(records, digest))
  {
    records, identities := [], [];
    var identityCounts: map<string, nat> := map[];
    ghost var bases: seq<string> := [];
    for i := 0 to |lines|
      invariant records == Records(lines[..i], parse) && bases == Bases(records, digest)
                && identities == Identities(bases)
      invariant Counts(identityCounts, bases)
    {
      assert lines[..i + 1][..i] == lines[..i];
      var p := parse(lines[i]);
      if p.None? {
        continue;
      }
      var base := Base(p.value, digest);
      var identity;
      identityCounts, identity := Number(identityCounts, base, bases);
      identities := identities + [identity];
      bases := bases + [base];
      records := records + [p.value];
    }
    assert lines[..|lines|] == lines;
  }

  lemma CountOfMore(bases: seq<string>, base: string, b: string)
    ensures Count(bases + [base], b) == Count(bases, b) + if b == base then 1 else 0
  {
    assert (bases + [base])[..|bases|] == bases;
  }

  lemma IdentityKept(bases: seq<string>, longer: seq<string>, k: nat)
    requires k < |bases| && bases <= longer
    ensures Identity(longer, k) == Identity(bases, k)
  {
    assert longer[..k + 1] == bases[..k + 1];
  }

  lemma OneMoreRecord(bases: seq<string>, base: string)
    ensures forall b :: Count(bases + [base], b) == Count(bases, b) + if b == base then 1 else 0
    ensures Identities(bases + [base]) == Identities(bases) + [Labelled(base, Count(bases, base) + 1)]
  {
    var longer := bases + [base];
    forall b ensures Count(longer, b) == Count(bases, b) + if b == base then 1 else 0 { CountOfMore(bases, base, b); }
    forall k | 0 <= k < |bases| ensures Identity(longer, k) == Identity(bases, k) { IdentityKept(bases, longer, k); }
    assert longer[..|bases| + 1] == longer;
  }

  lemma {:induction false} RecordsOnlyGrow(lines: seq<string>, more: seq<string>, parse: string -> Option<Parsed>)
    requires lines <= more
    ensures Records(lines, parse) <= Records(more, parse)
  {
    if |more| > |lines| {
      RecordsOnlyGrow(lines, more[..|more| - 1], parse);
    } else {
      assert lines == more;
    }
  }

  /** Appending to a transcript, even in the middle of a line, changes neither the records already
      read nor their identities. */
  lemma IdentitiesAreStable(data: string, more: string, parse: string -> Option<Parsed>, digest: string -> string)
    ensures Records(Lines(data), parse) <= Records(Lines(data + more), parse)
    ensures forall i :: 0 <= i < |Records(Lines(data), parse)| ==>
              IdentityIn(data + more, i, parse, digest) == IdentityIn(data, i, parse, digest)
  {
    LinesOnlyGrow(data, more);
    RecordsOnlyGrow(Lines(data), Lines(data + more), parse);
    var short, long := Records(Lines(data), parse), Records(Lines(data + more), parse);
    var b, c := Bases(short, digest), Bases(long, digest);
    forall i | 0 <= i < |short| ensures Identity(c, i) == Identity(b, i) {
      assert b <= c by { forall k | 0 <= k < |b| ensures b[k] == c[k] { assert short[k] == long[k]; } }
      IdentityKept(b, c, i);
    }
  }
}
