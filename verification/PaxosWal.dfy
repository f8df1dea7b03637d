/** The write-ahead log as bytes: one encoded record per line. */
module PaxosWal {
  import opened Bytes
  import opened Options
  import opened PaxosStorage

  const NEWLINE: Byte := 10

  /** How a record is written as one line and read back; the program uses JSON objects. */
  datatype Codec = Codec(encode: Record -> Data, decode: Data -> Option<Record>)

  /** What is left on the last line after some failed writes: a nonempty beginning of a record each time. */
  ghost predicate Fragments(c: Codec, t: Data) {
    exists pieces: seq<Data> :: t == Flatten(pieces) && forall p <- pieces :: IsFragment(c, p)
  }

  ghost predicate IsFragment(c: Codec, p: Data) {
    p != [] && exists rec :: p <= c.encode(rec)
  }

  function Flatten(pieces: seq<Data>): Data {
    if pieces == [] then [] else Flatten(pieces[..|pieces| - 1]) + pieces[|pieces| - 1]
  }

  /** Records are written without newlines and read back as they were; a record glued to fragments does not parse. */
  ghost predicate GoodCodec(c: Codec) {
    && (forall rec :: NEWLINE !in c.encode(rec) && c.decode(c.encode(rec)) == Some(rec))
    && (forall t, rec :: t != [] && Fragments(c, t) ==> c.decode(t + c.encode(rec)) == None)
  }

  function IndexOf(f: Data): (i: nat)
    requires NEWLINE in f
    ensures i < |f| && f[i] == NEWLINE && NEWLINE !in f[..i]
  {
    if f[0] == NEWLINE then 0 else
      assert f == [f[0]] + f[1..];
      assert f[1..][..IndexOf(f[1..])] == f[1..IndexOf(f[1..]) + 1];
      assert f[..IndexOf(f[1..]) + 1] == [f[0]] + f[1..IndexOf(f[1..]) + 1];
      1 + IndexOf(f[1..])
  }

  /** The complete lines of a file. */
  function Lines(f: Data): seq<Data> {
    if NEWLINE in f then [f[..IndexOf(f)]] + Lines(f[IndexOf(f) + 1..]) else []
  }

  /** What follows the last newline. */
  function Tail(f: Data): Data {
    if NEWLINE in f then Tail(f[IndexOf(f) + 1..]) else f
  }

  function Join(lines: seq<Data>): Data {
    if lines == [] then [] else lines[0] + [NEWLINE] + Join(lines[1..])
  }

  lemma SplitFirst(a: Data, b: Data)
    requires NEWLINE !in a
    ensures Lines(a + [NEWLINE] + b) == [a] + Lines(b)
    ensures Tail(a + [NEWLINE] + b) == Tail(b)
  {
    var f := a + [NEWLINE] + b;
    assert f[|a|] == NEWLINE;
    var i := IndexOf(f);
    assert i == |a|;
    assert f[..i] == a && f[i + 1..] == b;
  }

  /** A file with a newline is its first line, the newline, and the rest. */
  lemma Decompose(f: Data) returns (a: Data, rest: Data)
    requires NEWLINE in f
    ensures f == a + [NEWLINE] + rest && NEWLINE !in a
    ensures |a| == IndexOf(f)
    ensures Lines(f) == [a] + Lines(rest) && Tail(f) == Tail(rest)
  {
    var i := IndexOf(f);
    a, rest := f[..i], f[i + 1..];
  }

  lemma {:induction false} FileIsLinesAndTail(f: Data)
    ensures f == Join(Lines(f)) + Tail(f)
    ensures NEWLINE !in Tail(f)
    decreases |f|
  {
    if NEWLINE in f {
      hide Lines, Tail;
      var a, rest := Decompose(f);
      FileIsLinesAndTail(rest);
      assert ([a] + Lines(rest))[1..] == Lines(rest);
      assert a + [NEWLINE] + (Join(Lines(rest)) + Tail(rest)) == a + [NEWLINE] + Join(Lines(rest)) + Tail(rest);
    }
  }

  lemma JoinPrefix(a: Data, lines: seq<Data>, k: nat)
    requires 0 < k <= |lines| + 1
    ensures Join(([a] + lines)[..k]) == a + [NEWLINE] + Join(lines[..k - 1])
  {
    assert ([a] + lines)[..k][1..] == lines[..k - 1];
  }

  lemma NoLines(f: Data)
    requires NEWLINE !in f
    ensures Lines(f) == [] && Tail(f) == f
  {
  }

  /** Cutting a file after its first `n` bytes keeps some of its first lines, in order. */
  lemma {:induction false} CutKeepsLines(f: Data, n: nat)
    requires n <= |f|
    ensures |Lines(f[..n])| <= |Lines(f)| && Lines(f[..n]) == Lines(f)[..|Lines(f[..n])|]
    ensures forall k :: 0 <= k <= |Lines(f)| && |Join(Lines(f)[..k])| <= n ==> k <= |Lines(f[..n])|
    decreases |f|
  {
    hide Lines, Tail, Join;
    if NEWLINE in f {
      var a, rest := Decompose(f);
      if n <= |a| {
        assert f[..n] == a[..n];
        NoLines(f[..n]);
        forall k | 0 < k <= |Lines(f)| ensures |Join(Lines(f)[..k])| > n { JoinPrefix(a, Lines(rest), k); }
      } else {
        var m := n - |a| - 1;
        assert f[..n] == a + [NEWLINE] + rest[..m];
        SplitFirst(a, rest[..m]);
        CutKeepsLines(rest, m);
        PrefixOfCons(a, Lines(rest), |Lines(rest[..m])|);
        forall k | 0 < k <= |Lines(f)| && |Join(Lines(f)[..k])| <= n ensures k <= |Lines(f[..n])| {
          JoinPrefix(a, Lines(rest), k);
        }
      }
    } else {
      assert forall b :: b in f[..n] ==> b in f;
      NoLines(f);
      NoLines(f[..n]);
    }
  }

  lemma PrefixOfCons(a: Data, lines: seq<Data>, k: nat)
    requires k <= |lines|
    ensures [a] + lines[..k] == ([a] + lines)[..k + 1]
  {
  }

  /** Adding to the last line. */
  lemma {:induction false} ExtendTail(f: Data, p: Data)
    requires NEWLINE !in p
    ensures Lines(f + p) == Lines(f) && Tail(f + p) == Tail(f) + p
    decreases |f|
  {
    hide Lines, Tail;
    if NEWLINE in f {
      var a, rest := Decompose(f);
      ExtendTail(rest, p);
      assert f + p == a + [NEWLINE] + (rest + p);
      SplitFirst(a, rest + p);
    } else {
      NoLines(f);
      NoLines(f + p);
    }
  }

  /** Ending the last line. */
  lemma {:induction false} EndTail(f: Data)
    ensures Lines(f + [NEWLINE]) == Lines(f) + [Tail(f)] && Tail(f + [NEWLINE]) == []
    decreases |f|
  {
    hide Lines, Tail;
    if NEWLINE in f {
      var a, rest := Decompose(f);
      EndTail(rest);
      assert f + [NEWLINE] == a + [NEWLINE] + (rest + [NEWLINE]);
      SplitFirst(a, rest + [NEWLINE]);
    } else {
      NoLines(f);
      NoLines([]);
      SplitFirst(f, []);
      assert f + [NEWLINE] + [] == f + [NEWLINE];
    }
  }

  /** The log a file amounts to. */
  function Log(c: Codec, f: Data): (log: seq<Line>)
    ensures |log| == |Lines(f)|
  {
    seq(|Lines(f)|, i requires 0 <= i < |Lines(f)| => c.decode(Lines(f)[i]))
  }

  /** The byte after the last of the first `k` lines. */
  function EndOfLine(f: Data, k: nat): nat
    requires k <= |Lines(f)|
  {
    |Join(Lines(f)[..k])|
  }

  /** Crash safety at the level of bytes: wherever the unsynced end of the file is cut, a restart finds a prefix of
      the log that has every synced line. */
  lemma CutIsRestart(c: Codec, f: Data, synced: nat, n: nat)
    requires synced <= |Lines(f)| && EndOfLine(f, synced) <= n <= |f|
    ensures synced <= |Lines(f[..n])| <= |Lines(f)|
    ensures Log(c, f[..n]) == Log(c, f)[..|Lines(f[..n])|]
  {
    CutKeepsLines(f, n);
  }

  lemma FragmentsGrow(c: Codec, t: Data, p: Data)
    requires (t == [] || Fragments(c, t)) && IsFragment(c, p)
    ensures Fragments(c, t + p)
  {
    var pieces: seq<Data> := [];
    if t != [] {
      pieces :| t == Flatten(pieces) && forall x <- pieces :: IsFragment(c, x);
    }
    hide IsFragment;
    FlattenSnoc(pieces, p);
    assert forall x :: x in pieces + [p] ==> IsFragment(c, x);
  }

  lemma FlattenSnoc(pieces: seq<Data>, p: Data)
    ensures Flatten(pieces + [p]) == Flatten(pieces) + p
  {
    assert (pieces + [p])[..|pieces|] == pieces;
  }
}
