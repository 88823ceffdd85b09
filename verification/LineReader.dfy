/**
 Reading the complete lines of a growing file chunk by chunk.
 */
module LineReader {
  newtype byte = n: int | 0 <= n < 256

  const NEWLINE: byte := 0x0a

  type Bytes = seq<byte>

  /** The position of the first newline at or after `from`, the length when there is none. */
  function Find(d: Bytes, from: nat): (i: nat)
    requires from <= |d|
    ensures from <= i <= |d|
    ensures i < |d| ==> d[i] == NEWLINE
    ensures forall k :: from <= k < i ==> d[k] != NEWLINE
    decreases |d| - from
  {
    if from == |d| || d[from] == NEWLINE then from else Find(d, from + 1)
  }

  /** The lines that end in a newline, without it. */
  function Lines(d: Bytes): seq<Bytes>
    decreases |d|
  {
    var i := Find(d, 0);
    if i == |d| then [] else [d[..i]] + Lines(d[i + 1..])
  }

  /** The number of bytes up to and including the last newline. */
  function Parsed(d: Bytes): (n: nat)
    ensures n <= |d|
    decreases |d|
  {
    var i := Find(d, 0);
    if i == |d| then 0 else i + 1 + Parsed(d[i + 1..])
  }

  function Concat(chunks: seq<Bytes>): Bytes {
    if chunks == [] then [] else Concat(chunks[..|chunks| - 1]) + chunks[|chunks| - 1]
  }

  /** The lines with their newlines put back. */
  function Unlines(lines: seq<Bytes>): Bytes {
    if lines == [] then [] else lines[0] + [NEWLINE] + Unlines(lines[1..])
  }

  // ----- the loops -----

  /** `buffer.indexOf(0x0a, from)`; the length stands for -1. */
  method IndexOf(buffer: Bytes, from: nat) returns (i: nat)
    requires from <= |buffer|
    ensures i == Find(buffer, from)
  {
    i := from;
    while i < |buffer| && buffer[i] != NEWLINE
      invariant from <= i <= |buffer|
      invariant Find(buffer, from) == Find(buffer, i)
    {
      i := i + 1;
    }
  }

  /** `readLineRange` over the chunks of the stream that starts at byte `start`. */
  method ReadLineRange(chunks: seq<Bytes>, start: nat) returns (lines: seq<Bytes>, parsedBytes: nat)
    ensures lines == Lines(Concat(chunks))
    ensures parsedBytes == start + Parsed(Concat(chunks))
  {
    hide Lines, Parsed, Find, Concat;
    lines, parsedBytes := [], start;
    var rest: Bytes := [];
    var c := 0;
    Nothing();
    while c < |chunks|
      invariant c <= |chunks|
      invariant lines == Lines(Concat(chunks[..c])) && parsedBytes == start + Parsed(Concat(chunks[..c]))
      invariant rest == Concat(chunks[..c])[Parsed(Concat(chunks[..c]))..]
    {
      var buffer := rest + chunks[c];
      ghost var before, whole := Concat(chunks[..c]), Concat(chunks[..c + 1]);
      ConcatNext(chunks, c);
      Resumes(before, chunks[c]);
      ghost var known := lines;
      var lineStart := 0;
      var index := IndexOf(buffer, lineStart);
      assert buffer[0..] == buffer;
      while index < |buffer|
        invariant lineStart <= index <= |buffer| && index == Find(buffer, lineStart)
        invariant lines + Lines(buffer[lineStart..]) == known + Lines(buffer)
        invariant lineStart + Parsed(buffer[lineStart..]) == Parsed(buffer)
        decreases |buffer| - lineStart
      {
        OneLine(buffer, lineStart);
        AppendAssociates(lines, buffer[lineStart..index], Lines(buffer[index + 1..]));
        lines := lines + [buffer[lineStart..index]];
        lineStart := index + 1;
        index := IndexOf(buffer, lineStart);
      }
      LastLine(buffer, lineStart);
      AppendNone(lines);
      rest := buffer[lineStart..];
      parsedBytes := parsedBytes + lineStart;
      c := c + 1;
    }
    assert chunks[..c] == chunks;
  }

  lemma Nothing()
    ensures Lines([]) == [] && Parsed([]) == 0 && Concat([]) == []
  {
  }

  lemma ConcatNext(chunks: seq<Bytes>, c: nat)
    requires c < |chunks|
    ensures Concat(chunks[..c + 1]) == Concat(chunks[..c]) + chunks[c]
  {
    assert chunks[..c + 1][..c] == chunks[..c];
  }

  lemma AppendAssociates(lines: seq<Bytes>, line: Bytes, more: seq<Bytes>)
    ensures lines + ([line] + more) == lines + [line] + more
  {
  }

  /** The first newline is where the first newline is. */
  lemma {:induction false} FindIs(d: Bytes, from: nat, i: nat)
    requires from <= i <= |d| && (i < |d| ==> d[i] == NEWLINE)
    requires forall k :: from <= k < i ==> d[k] != NEWLINE
    ensures Find(d, from) == i
    decreases i - from
  {
    if from < i { FindIs(d, from + 1, i); }
  }

  lemma FindFrom(d: Bytes, from: nat)
    requires from <= |d|
    ensures Find(d[from..], 0) == Find(d, from) - from
  {
    hide Find;
    var i := Find(d, from);
    forall k | 0 <= k < i - from ensures d[from..][k] != NEWLINE { assert d[from..][k] == d[from + k]; }
    FindIs(d[from..], 0, i - from);
  }

  lemma OneLine(d: Bytes, from: nat)
    requires from <= |d| && Find(d, from) < |d|
    ensures var i := Find(d, from);
      Lines(d[from..]) == [d[from..i]] + Lines(d[i + 1..]) && Parsed(d[from..]) == i + 1 - from + Parsed(d[i + 1..])
  {
    hide Find, Lines, Parsed;
    FindFrom(d, from);
    var i := Find(d, from);
    Unfold(d[from..]);
    assert d[from..][..i - from] == d[from..i] && d[from..][i - from + 1..] == d[i + 1..];
  }

  lemma LastLine(d: Bytes, from: nat)
    requires from <= |d| && Find(d, from) == |d|
    ensures Lines(d[from..]) == [] && Parsed(d[from..]) == 0
  {
    hide Find, Lines, Parsed;
    FindFrom(d, from);
    NoLine(d[from..]);
  }

  lemma AppendNone(lines: seq<Bytes>)
    ensures lines + [] == lines
  {
  }

  // ----- what the lines are -----

  lemma Unfold(d: Bytes)
    requires Find(d, 0) < |d|
    ensures var i := Find(d, 0);
      Lines(d) == [d[..i]] + Lines(d[i + 1..]) && Parsed(d) == i + 1 + Parsed(d[i + 1..])
  {
    hide Find;
  }

  /** Reading may stop after any bytes and go on with the unparsed rest. */
  lemma {:induction false} Resumes(a: Bytes, b: Bytes)
    ensures Lines(a + b) == Lines(a) + Lines(a[Parsed(a)..] + b)
    ensures Parsed(a + b) == Parsed(a) + Parsed(a[Parsed(a)..] + b)
    ensures (a + b)[Parsed(a + b)..] == (a[Parsed(a)..] + b)[Parsed(a[Parsed(a)..] + b)..]
    decreases |a|
  {
    hide Find, Lines, Parsed;
    var i := Find(a, 0);
    if i == |a| {
      NoLine(a);
      assert a[0..] == a;
      PrependNone(Lines(a + b));
    } else {
      var more := a[i + 1..];
      var rest := more[Parsed(more)..] + b;
      FindPrefix(a, b);
      Unfold(a);
      Unfold(a + b);
      assert (a + b)[..i] == a[..i] && (a + b)[i + 1..] == more + b;
      Resumes(more, b);
      assert a[Parsed(a)..] == more[Parsed(more)..];
      PrependAssociates(a[..i], Lines(more), Lines(rest));
      assert (a + b)[Parsed(a + b)..] == (more + b)[Parsed(more + b)..];
    }
  }

  lemma NoLine(d: Bytes)
    requires Find(d, 0) == |d|
    ensures Lines(d) == [] && Parsed(d) == 0
  {
  }

  lemma PrependNone(lines: seq<Bytes>)
    ensures [] + lines == lines
  {
  }

  lemma PrependAssociates(line: Bytes, a: seq<Bytes>, b: seq<Bytes>)
    ensures [line] + (a + b) == [line] + a + b
  {
  }

  lemma FindPrefix(a: Bytes, b: Bytes)
    requires Find(a, 0) < |a|
    ensures Find(a + b, 0) == Find(a, 0)
  {
    hide Find;
    var i := Find(a, 0);
    forall k | 0 <= k < i ensures (a + b)[k] != NEWLINE { assert (a + b)[k] == a[k]; }
    FindIs(a + b, 0, i);
  }

  /**
   The lines are exactly the newline-terminated ones: put together again they are the parsed
   bytes, none holds a newline, and no newline follows the parsed bytes.
   */
  lemma {:induction false} LinesAreExact(d: Bytes)
    ensures Unlines(Lines(d)) == d[..Parsed(d)]
    ensures forall line :: line in Lines(d) ==> NEWLINE !in line
    ensures NEWLINE !in d[Parsed(d)..]
    decreases |d|
  {
    hide Find, Lines, Parsed;
    var i := Find(d, 0);
    if i == |d| {
      NoLine(d);
    } else {
      var more := d[i + 1..];
      Unfold(d);
      LinesAreExact(more);
      UnlinesCons(d[..i], Lines(more));
      assert d[..Parsed(d)] == d[..i] + [NEWLINE] + more[..Parsed(more)];
      assert d[Parsed(d)..] == more[Parsed(more)..];
    }
  }

  lemma UnlinesCons(line: Bytes, more: seq<Bytes>)
    ensures Unlines([line] + more) == line + [NEWLINE] + Unlines(more)
  {
    assert ([line] + more)[1..] == more;
  }

  /** And nothing else could be returned: such lines and rest determine each other. */
  lemma {:induction false} LinesAreUnique(lines: seq<Bytes>, rest: Bytes)
    requires forall line :: line in lines ==> NEWLINE !in line
    requires NEWLINE !in rest
    ensures Lines(Unlines(lines) + rest) == lines && Parsed(Unlines(lines) + rest) == |Unlines(lines)|
    decreases |lines|
  {
    hide Find, Lines, Parsed;
    var d := Unlines(lines) + rest;
    if lines == [] {
      assert d == rest;
      forall k | 0 <= k < |d| ensures d[k] != NEWLINE { assert d[k] in rest; }
      FindIs(d, 0, |d|);
      NoLine(d);
    } else {
      var more := Unlines(lines[1..]) + rest;
      var i := |lines[0]|;
      assert lines[0] in lines;
      assert d == lines[0] + [NEWLINE] + more;
      forall k | 0 <= k < i ensures d[k] != NEWLINE { assert d[k] == lines[0][k] && lines[0][k] in lines[0]; }
      FindIs(d, 0, i);
      Unfold(d);
      assert d[..i] == lines[0] && d[i + 1..] == more;
      LinesAreUnique(lines[1..], rest);
      assert lines == [lines[0]] + lines[1..];
    }
  }

  /** Reading a file, appending to it and reading on from `parsedBytes` gives the lines of one full read. */
  lemma ReadAppendResume(file: Bytes, appended: Bytes)
    ensures var p := Parsed(file);
      && Lines(file + appended) == Lines(file) + Lines((file + appended)[p..])
      && Parsed(file + appended) == p + Parsed((file + appended)[p..])
  {
    hide Find, Lines, Parsed;
    Resumes(file, appended);
    assert (file + appended)[Parsed(file)..] == file[Parsed(file)..] + appended;
  }
}
