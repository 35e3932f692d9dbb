/** The writer that tags each line of the build log as it streams by. */
module Output {

  const NEWLINE: char := '\n'

  predicate OneLine(s: string) { NEWLINE !in s }

  /** The reference: `tail` of the input, one character at a time, with the prefix at each line's start. */
  function Tagged(prefix: string, s: string, atStart: bool): string {
    if s == [] then (if atStart then "" else [NEWLINE])
    else (if atStart then prefix else "") + [s[0]] + Tagged(prefix, s[1..], s[0] == NEWLINE)
  }

  /** Every line of the input behind the prefix; a last line without its newline gets one. */
  function PrefixLines(prefix: string, s: string): string { Tagged(prefix, s, true) }

  /** Empty, or ending in a newline. */
  predicate LineEnd(s: string) { s == "" || s[|s| - 1] == NEWLINE }

  /** Whole lines are tagged independently of what follows them. */
  lemma {:induction false} TagAfterLines(prefix: string, a: string, b: string, atStart: bool)
    requires LineEnd(a) && (a == "" ==> atStart)
    ensures Tagged(prefix, a + b, atStart) == Tagged(prefix, a, atStart) + Tagged(prefix, b, true)
  {
    if a == "" {
      assert a + b == b;
    } else {
      assert (a + b)[1..] == a[1..] + b;
      TagAfterLines(prefix, a[1..], b, a[0] == NEWLINE);
    }
  }

  /** The image of one line, with or without its newline. */
  lemma {:induction false} TagOneLine(prefix: string, line: string, atStart: bool)
    requires OneLine(line)
    ensures Tagged(prefix, line + [NEWLINE], atStart) == (if atStart then prefix else "") + line + [NEWLINE]
    ensures line != "" || !atStart ==>
              Tagged(prefix, line, atStart) == (if atStart then prefix else "") + line + [NEWLINE]
  {
    if line == "" {
      assert line + [NEWLINE] == [NEWLINE];
      assert Tagged(prefix, [NEWLINE][1..], true) == "";
    } else {
      assert (line + [NEWLINE])[1..] == line[1..] + [NEWLINE];
      assert line == [line[0]] + line[1..];
      TagOneLine(prefix, line[1..], false);
    }
  }

  method IndexOf(s: string, c: char) returns (r: int)
    ensures r < 0 ==> c !in s
    ensures r >= 0 ==> r < |s| && s[r] == c && c !in s[..r]
  {
    for i := 0 to |s|
      invariant c !in s[..i]
    {
      if s[i] == c { return i; }
    }
    return -1;
  }

  lemma NextLine(prefix: string, base: string, done: string, line: string)
    requires LineEnd(done) && OneLine(line)
    ensures base + PrefixLines(prefix, done + line + [NEWLINE]) ==
            base + PrefixLines(prefix, done) + prefix + line + [NEWLINE]
    ensures line != "" ==>
              base + PrefixLines(prefix, done + line) == base + PrefixLines(prefix, done) + prefix + line + [NEWLINE]
  {
    TagOneLine(prefix, line, true);
    TagAfterLines(prefix, done, line + [NEWLINE], true);
    assert done + (line + [NEWLINE]) == done + line + [NEWLINE];
    TagAfterLines(prefix, done, line, true);
  }

  class PrefixWriter {
    const prefix: string
    var buf: string
    var out: string
    ghost var lines: string   // the complete lines written since the last flush
    ghost var base: string    // the output at that flush

    /** Between writes, complete lines are out, tagged, and the buffer holds no newline. */
    ghost predicate Valid()
      reads this
    {
      LineEnd(lines) && OneLine(buf) && out == base + PrefixLines(prefix, lines)
    }

    /** Everything written since the last flush. */
    ghost function Input(): string
      reads this
    {
      lines + buf
    }

    constructor (p: string)
      ensures Valid() && prefix == p && buf == "" && out == "" && Input() == "" && base == ""
    {
      prefix, buf, out, lines, base := p, "", "", "", "";
    }

    method Write(p: string) returns (n: nat)
      requires Valid()
      modifies this
      ensures Valid() && n == |p|
      ensures Input() == old(Input()) + p && base == old(base)
    {
      buf := buf + p;
      assert lines + buf == old(Input()) + p;
      var i := IndexOf(buf, NEWLINE);
      while i >= 0
        invariant Input() == old(Input()) + p && base == old(base)
        invariant LineEnd(lines) && out == base + PrefixLines(prefix, lines)
        invariant i < 0 ==> OneLine(buf)
        invariant i >= 0 ==> i < |buf| && buf[i] == NEWLINE && OneLine(buf[..i])
        decreases |buf|
      {
        var line := buf[..i];
        assert lines + buf == lines + line + [NEWLINE] + buf[i + 1..];
        buf := buf[i + 1..];
        NextLine(prefix, base, lines, line);
        lines := lines + line + [NEWLINE];
        out := out + prefix + line + [NEWLINE];
        i := IndexOf(buf, NEWLINE);
      }
      return |p|;
    }

    /** After a flush the output is the image of the whole input, however it was split. */
    method Flush()
      requires Valid()
      modifies this
      ensures Valid() && buf == "" && Input() == "" && base == out
      ensures out == old(base) + PrefixLines(prefix, old(Input()))
    {
      if |buf| != 0 {
        NextLine(prefix, base, lines, buf);
        out := out + prefix + buf + [NEWLINE];
        buf := "";
      } else {
        assert lines + buf == lines;
      }
      lines, base := "", out;
    }
  }

  function Concat(chunks: seq<string>): string {
    if chunks == [] then "" else Concat(chunks[..|chunks| - 1]) + chunks[|chunks| - 1]
  }

  /** However a stream is split into writes, its image is that of the whole. */
  method Stream(prefix: string, chunks: seq<string>) returns (out: string)
    ensures out == PrefixLines(prefix, Concat(chunks))
  {
    var w := new PrefixWriter(prefix);
    for k := 0 to |chunks|
      invariant fresh(w) && w.Valid() && w.prefix == prefix && w.base == ""
      invariant w.Input() == Concat(chunks[..k])
    {
      var _ := w.Write(chunks[k]);
      assert chunks[..k + 1][..k] == chunks[..k];
    }
    assert chunks[..|chunks|] == chunks;
    w.Flush();
    out := w.out;
  }
}
