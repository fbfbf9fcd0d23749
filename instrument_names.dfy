/**
 * The static instrument-name table of MusicManager: names are read line by
 * line from a bundled text resource up to the first blank line, the end of
 * the stream or a read error, and the table is then padded with empty
 * strings to at least NUM_INSTRUMENT entries.
 */
module InstrumentNames {
  import opened Wrappers
  import opened JavaStrings

  const NUM_INSTRUMENT: nat := 128

  /** The resource as the reader sees it: its lines; Some(k) when the k-th
      readLine call (counting from 0) throws an IOException (a failure to
      open the stream at all is Some(0)); and whether closing the reader,
      once the reading loop has ended normally, throws an IOException. */
  datatype ResourceStream = ResourceStream(lines: seq<string>, failsAt: Option<nat>, closeFails: bool)

  /** What one readLine call gives: a line, null at end of stream, or an IOException. */
  datatype ReadResult = Line(text: string) | EndOfStream | ReadError

  /** The result of the i-th readLine call. */
  function ReadLine(src: ResourceStream, i: nat): (r: ReadResult)
  {
    if src.failsAt.Some? && src.failsAt.value <= i then ReadError
    else if i < |src.lines| then Line(src.lines[i])
    else EndOfStream
  }

  /** Once the stream has failed it stays failed: every later call throws too. */
  lemma ReadErrorPersists(src: ResourceStream, i: nat, j: nat)
    requires i <= j && ReadLine(src, i).ReadError?
    ensures ReadLine(src, j).ReadError?
  {
  }

  /** The lines before the first blank one (all of them if none is blank). */
  function NamePrefix(lines: seq<string>): (p: seq<string>)
  {
    if lines == [] || IsBlank(lines[0]) then [] else [lines[0]] + NamePrefix(lines[1..])
  }

  /** NamePrefix keeps the lines in order, none of them blank, and stops
      only at the end of the input or at a blank line. */
  lemma {:induction false} NamePrefixSpec(lines: seq<string>)
    ensures |NamePrefix(lines)| <= |lines|
    ensures NamePrefix(lines) == lines[..|NamePrefix(lines)|]
    ensures forall i :: 0 <= i < |NamePrefix(lines)| ==> !IsBlank(lines[i])
    ensures |NamePrefix(lines)| == |lines| || IsBlank(lines[|NamePrefix(lines)|])
  {
    if lines != [] && !IsBlank(lines[0]) {
      NamePrefixSpec(lines[1..]);
      assert lines[..|NamePrefix(lines)|] == [lines[0]] + lines[1..][..|NamePrefix(lines[1..])|];
    }
  }

  /** Past k non-blank lines, the prefix continues with that of the rest. */
  lemma {:induction false} NamePrefixFrom(lines: seq<string>, k: nat)
    requires k <= |lines|
    requires forall i :: 0 <= i < k ==> !IsBlank(lines[i])
    ensures NamePrefix(lines) == lines[..k] + NamePrefix(lines[k..])
  {
    if k > 0 {
      NamePrefixFrom(lines[1..], k - 1);
      assert lines[1..][..k - 1] == lines[1..k];
      assert lines[1..][k - 1..] == lines[k..];
      assert lines[..k] == [lines[0]] + lines[1..k];
    }
  }

  /** The lines the reading loop adds before it stops. */
  function KeptLines(src: ResourceStream): (kept: seq<string>)
  {
    var p := NamePrefix(src.lines);
    match src.failsAt
    case Some(k) => if k < |p| then p[..k] else p
    case None => p
  }

  /** The read error cuts the loop short: it strikes no later than the
      readLine call that would have ended the loop anyway. */
  predicate ReadFails(src: ResourceStream)
  {
    src.failsAt.Some? && src.failsAt.value <= |NamePrefix(src.lines)|
  }

  /** The error is reported when the loop is cut short, and when the loop
      ends normally but closing the reader fails. */
  predicate FailureReported(src: ResourceStream)
  {
    ReadFails(src) || src.closeFails
  }

  /** The kept lines are the input lines in order, none blank; without a
      read error they stop exactly at end of input or before the first blank
      line, and with one they are the lines read before it. */
  lemma KeptLinesSpec(src: ResourceStream)
    ensures |KeptLines(src)| <= |src.lines|
    ensures KeptLines(src) == src.lines[..|KeptLines(src)|]
    ensures forall i :: 0 <= i < |KeptLines(src)| ==> !IsBlank(KeptLines(src)[i])
    ensures ReadFails(src) ==> |KeptLines(src)| == src.failsAt.value
    ensures !ReadFails(src) ==> KeptLines(src) == NamePrefix(src.lines)
    ensures !ReadFails(src) ==>
      |KeptLines(src)| == |src.lines| || IsBlank(src.lines[|KeptLines(src)|])
  {
    NamePrefixSpec(src.lines);
  }

  function Max(a: int, b: int): (m: int)
  {
    if a < b then b else a
  }

  /** Appends empty strings until there are at least n entries. */
  function Padded(names: seq<string>, n: nat): (padded: seq<string>)
  {
    if |names| >= n then names else names + seq(n - |names|, _ => "")
  }

  /** The name an id should get: the id-th kept line, or "" when fewer lines were kept. */
  function NameOf(src: ResourceStream, id: nat): (name: string)
  {
    if id < |KeptLines(src)| then KeptLines(src)[id] else ""
  }

  /** The table initInstrumentNames leaves behind. */
  function InstrumentTable(src: ResourceStream): (table: seq<string>)
  {
    Padded(KeptLines(src), NUM_INSTRUMENT)
  }

  /** The table has max(k, 128) entries for k kept lines: the kept lines
      first, then only empty strings. */
  lemma InstrumentTableShape(src: ResourceStream)
    ensures |InstrumentTable(src)| == Max(|KeptLines(src)|, NUM_INSTRUMENT)
    ensures InstrumentTable(src)[..|KeptLines(src)|] == KeptLines(src)
    ensures forall i :: |KeptLines(src)| <= i < |InstrumentTable(src)| ==> InstrumentTable(src)[i] == ""
  {
  }

  /** Whatever the resource holds, and whether or not reading it fails,
      every id in [0, 128) names an entry of the table. */
  lemma EveryIdHasAName(src: ResourceStream)
    ensures NUM_INSTRUMENT <= |InstrumentTable(src)|
  {
  }

  /** The entry for an id below 128: the id-th kept line, or "" past them. */
  lemma TableEntry(src: ResourceStream, id: nat)
    requires id < NUM_INSTRUMENT
    ensures id < |InstrumentTable(src)|
    ensures InstrumentTable(src)[id] == NameOf(src, id)
  {
    InstrumentTableShape(src);
    if id < |KeptLines(src)| {
      assert InstrumentTable(src)[id] == InstrumentTable(src)[..|KeptLines(src)|][id];
    }
  }

  /** initInstrumentNames: the reading loop, closing the reader, then the
      padding loop. The second result says whether the error was reported. */
  method ReadInstrumentNames(src: ResourceStream) returns (names: seq<string>, readFailed: bool)
    ensures names == InstrumentTable(src)
    ensures readFailed == FailureReported(src)
  {
    names := [];
    var i := 0;
    var line := ReadLine(src, 0);
    while line.Line? && !IsBlank(line.text)
      invariant i <= |src.lines|
      invariant src.failsAt.Some? ==> i <= src.failsAt.value
      invariant line == ReadLine(src, i)
      invariant names == src.lines[..i]
      invariant forall j :: 0 <= j < i ==> !IsBlank(src.lines[j])
      decreases |src.lines| - i
    {
      names := names + [line.text];
      i := i + 1;
      line := ReadLine(src, i);
    }
    NamePrefixFrom(src.lines, i);
    NamePrefixSpec(src.lines);
    assert line.ReadError? == ReadFails(src);
    // in.close() runs only when the loop ended without an exception
    readFailed := line.ReadError? || src.closeFails;
    if !line.ReadError? {
      assert NamePrefix(src.lines[i..]) == [];
    }
    assert names == KeptLines(src);

    ghost var kept := names;
    while |names| < NUM_INSTRUMENT
      invariant |kept| <= |names| <= Max(|kept|, NUM_INSTRUMENT)
      invariant names == kept + seq(|names| - |kept|, _ => "")
      decreases NUM_INSTRUMENT - |names|
    {
      names := names + [""];
    }
  }

  /** A resource of three names yields those three, then empty strings up
      to index 127. */
  lemma ThreeNameResource()
    ensures var t := InstrumentTable(ResourceStream(["Piano", "Guitar", "Bass"], None, false));
      |t| == 128 && t[0] == "Piano" && t[2] == "Bass" && t[3] == "" && t[127] == ""
  {
    var lines := ["Piano", "Guitar", "Bass"];
    assert !Trimmable(lines[0][0]) && !Trimmable(lines[1][0]) && !Trimmable(lines[2][0]);
    NamePrefixFrom(lines, 3);
    assert lines[3..] == [];
  }
}
