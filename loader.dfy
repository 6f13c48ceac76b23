/**
 * `readFileLines`: skip a header line, then keep the third tab-separated
 * field of every following line up to the first empty one.  A file is the
 * sequence of lines `getline` returns (without their newline characters);
 * a path that cannot be opened is absent from the `files` map; `strtod` is
 * the parameter `toReal`.
 */
module Loader {
  import opened Wrappers
  import opened Errors
  import opened Fields

  type Lines = seq<string>

  /** What the k-th `getline` call leaves in the line buffer: the k-th line, or "" past the end. */
  function GetLine(lines: Lines, k: nat): (r: string)
    ensures k < |lines| ==> r == lines[k]
    ensures k >= |lines| ==> r == ""
  {
    if k < |lines| then lines[k] else ""
  }

  /**
   * What the k-th `getline` call leaves in the line buffer as the C++ library
   * defines it, for a file whose text ends with a newline (`terminated`) or
   * not.  A call made once end of file has been reached fails without
   * clearing the buffer, so after an unterminated last line the buffer keeps
   * that line for ever.
   */
  function GetLineAsWritten(lines: Lines, terminated: bool, k: nat): (r: string)
    ensures terminated ==> r == GetLine(lines, k)
    ensures !terminated && |lines| > 0 && k >= |lines| ==> r == lines[|lines| - 1]
  {
    if k < |lines| then lines[k]
    else if terminated || |lines| == 0 then ""
    else lines[|lines| - 1]
  }

  /**
   * The loop of `readFileLines` as written, on the file "header\nx\ty\t0.5"
   * (no final newline): the buffer is non-empty at every test of the loop
   * condition, so the loop never ends.
   */
  lemma UnterminatedFileNeverStops(n: nat)
    ensures GetLineAsWritten(["header", "x\ty\t0.5"], false, 1 + n) != ""
  {
  }

  /** Any file whose lines after the header are all non-empty and whose last line lacks a newline never stops. */
  lemma UnterminatedNonEmptyNeverStops(lines: Lines, n: nat)
    requires |lines| >= 1 && forall j :: 1 <= j < |lines| ==> lines[j] != ""
    requires lines[|lines| - 1] != ""
    ensures GetLineAsWritten(lines, false, 1 + n) != ""
  {
  }

  /** What one data line appends: its converted third field, if it has one. */
  function LineValues(line: string, toReal: string -> real): (r: seq<real>)
    ensures |r| <= 1
  {
    match ThirdField(line)
    case None => []
    case Some(f) => [toReal(f)]
  }

  /** The values of lines k, k+1, ... up to the first empty line or the end. */
  function ValuesFrom(lines: Lines, k: nat, toReal: string -> real): (r: seq<real>)
    ensures k <= |lines| ==> |r| <= |lines| - k
    decreases |lines| - k
  {
    if k >= |lines| || lines[k] == "" then []
    else LineValues(lines[k], toReal) + ValuesFrom(lines, k + 1, toReal)
  }

  /** The values a file yields: line 0 is the header and is never looked at. */
  function FileValues(lines: Lines, toReal: string -> real): (r: seq<real>)
    ensures |lines| >= 1 ==> |r| <= |lines| - 1
  {
    ValuesFrom(lines, 1, toReal)
  }

  /** The result `readFileLines` leaves in `out_vec`, or the error it throws. */
  function Load(path: string, outVec: seq<real>, files: map<string, Lines>, toReal: string -> real): (r: Result<seq<real>, Error>)
    ensures r.Success? <==> path in files
    ensures r.Failure? ==> r.error == InvalidArgument(InvalidInputFile(path))
    ensures r.Success? ==> |outVec| <= |r.value| && r.value[..|outVec|] == outVec
    ensures r.Success? ==> r.value[|outVec|..] == FileValues(files[path], toReal)
  {
    if path in files then Success(outVec + FileValues(files[path], toReal))
    else Failure(InvalidArgument(InvalidInputFile(path)))
  }

  /**
   * One turn of the inner loop: from `from`, the field ends at the next tab
   * or newline, and the remaining fields start after that separator ...
   */
  lemma FieldStepSome(line: string, from: nat, p: nat)
    requires from <= |line|
    requires NextEnd(line, from) == Some(p)
    ensures from <= p < |line| && Split(line[from..]) == [line[from..p]] + Split(line[p + 1..])
  {
    FieldEndAt(line, from);
    var rest := line[from..];
    var k := p - from;
    assert FirstEnd(rest) == Some(k);
    assert rest[..k] == line[from..p];
    assert rest[k + 1..] == line[p + 1..];
  }

  /** ... or, when `find` returns `npos`, the last field runs to the end of the line. */
  lemma FieldStepNone(line: string, from: nat)
    requires from <= |line|
    requires NextEnd(line, from) == None
    ensures Split(line[from..]) == [line[from..]]
  {
    FieldEndAt(line, from);
  }

  /** What one turn of the inner loop learns about the fields it has not yet visited. */
  predicate Remaining(line: string, from: nat, fields: seq<string>, index: nat)
  {
    from <= |line| && index <= |fields| && Split(line[from..]) == fields[index..]
  }

  lemma Advance(line: string, from: nat, fields: seq<string>, index: nat)
    requires Remaining(line, from, fields, index)
    ensures index < |fields|
    ensures NextEnd(line, from).None? ==> fields[index] == line[from..] && index + 1 == |fields|
    ensures NextEnd(line, from).Some? ==>
              from <= NextEnd(line, from).value < |line| && fields[index] == line[from..NextEnd(line, from).value]
  {
    match NextEnd(line, from)
    case None =>
      FieldStepNone(line, from);
    case Some(p) =>
      FieldStepSome(line, from, p);
  }

  /** After a separator at `p`, the fields not yet visited start at `p + 1`. */
  lemma AdvancePast(line: string, from: nat, fields: seq<string>, index: nat, p: nat)
    requires Remaining(line, from, fields, index) && NextEnd(line, from) == Some(p)
    ensures Remaining(line, p + 1, fields, index + 1)
  {
    FieldStepSome(line, from, p);
    assert fields[index + 1..] == fields[index..][1..];
  }

  /** The inner loop over the fields of one line (pfDeconvIO.cpp:135-148). */
  method PushThirdField(line: string, toReal: string -> real, outVec: seq<real>) returns (out: seq<real>)
    ensures out == outVec + LineValues(line, toReal)
  {
    out := outVec;
    ghost var fields := Split(line);
    assert line[0..] == line;
    var fieldStart, fieldEnd, fieldIndex := 0, 0, 0;
    while fieldEnd < |line|
      invariant fieldIndex <= |fields|
      invariant fieldEnd < |line| ==> Remaining(line, fieldStart, fields, fieldIndex)
      invariant fieldEnd >= |line| ==> fieldIndex == (if line == "" then 0 else |fields|)
      invariant out == outVec + (if fieldIndex > 2 then [toReal(fields[2])] else [])
      decreases if fieldEnd < |line| then |line| + 1 - fieldStart else 0
    {
      Advance(line, fieldStart, fields, fieldIndex);
      var stop := NextEnd(line, fieldStart);
      var field: string;
      if stop.None? {
        // npos: the last field runs to the end of the line, and the loop ends
        field := line[fieldStart..];
        fieldEnd := |line|;
      } else {
        field := line[fieldStart..stop.value];
        fieldEnd := stop.value;
      }
      if fieldIndex == 2 {
        out := out + [toReal(field)];
      }
      if stop.None? {
        // field_end + 1 is npos + 1, which wraps to 0
        fieldStart := 0;
        fieldIndex := fieldIndex + 1;
      } else {
        var p := stop.value;
        AdvancePast(line, fieldStart, fields, fieldIndex, p);
        fieldStart := p + 1;
        fieldIndex := fieldIndex + 1;
      }
    }
  }

  /** `readFileLines(path, out_vec)` (pfDeconvIO.cpp:128-156). */
  method ReadFileLines(path: string, outVec: seq<real>, files: map<string, Lines>, toReal: string -> real)
    returns (r: Result<seq<real>, Error>)
    ensures path !in files ==> r == Failure(InvalidArgument(InvalidInputFile(path)))
    ensures path in files ==> r == Success(outVec + FileValues(files[path], toReal))
  {
    if path !in files {
      return Failure(InvalidArgument(InvalidInputFile(path)));
    }
    var lines := files[path];
    var out := outVec;
    var next := 1;  // the first getline call consumed the header
    var line := GetLine(lines, next);
    while |line| > 0
      invariant line == GetLine(lines, next)
      invariant out + ValuesFrom(lines, next, toReal) == outVec + FileValues(lines, toReal)
      decreases |lines| - next
    {
      out := PushThirdField(line, toReal, out);
      next := next + 1;
      line := GetLine(lines, next);
    }
    assert ValuesFrom(lines, next, toReal) == [];
    assert out + [] == out;
    return Success(out);
  }

  /**
   * A file whose data lines are all well formed yields one value per data
   * line, in line order, each converted from that line's third field.
   */
  lemma {:induction false} WellFormedValuesFrom(lines: Lines, k: nat, toReal: string -> real)
    requires k <= |lines|
    requires forall j :: k <= j < |lines| ==> lines[j] != "" && ThirdField(lines[j]).Some?
    ensures |ValuesFrom(lines, k, toReal)| == |lines| - k
    ensures forall j :: 0 <= j < |lines| - k ==>
              ValuesFrom(lines, k, toReal)[j] == toReal(ThirdField(lines[k + j]).value)
    decreases |lines| - k
  {
    if k < |lines| {
      WellFormedValuesFrom(lines, k + 1, toReal);
      var v := ValuesFrom(lines, k, toReal);
      assert v == [toReal(ThirdField(lines[k]).value)] + ValuesFrom(lines, k + 1, toReal);
      forall j | 0 < j < |lines| - k
        ensures v[j] == toReal(ThirdField(lines[k + j]).value)
      {
        assert v[j] == ValuesFrom(lines, k + 1, toReal)[j - 1];
        assert k + 1 + (j - 1) == k + j;
      }
    }
  }

  lemma WellFormedFileValues(lines: Lines, toReal: string -> real)
    requires |lines| >= 1
    requires forall j :: 1 <= j < |lines| ==> lines[j] != "" && ThirdField(lines[j]).Some?
    ensures |FileValues(lines, toReal)| == |lines| - 1
    ensures forall j :: 0 <= j < |lines| - 1 ==>
              FileValues(lines, toReal)[j] == toReal(ThirdField(lines[j + 1]).value)
  {
    WellFormedValuesFrom(lines, 1, toReal);
  }

  /** Nothing after the first empty line is read. */
  lemma {:induction false} StopsAtEmptyLine(lines: Lines, k: nat, e: nat, toReal: string -> real)
    requires k <= e < |lines| && lines[e] == ""
    ensures ValuesFrom(lines, k, toReal) == ValuesFrom(lines[..e], k, toReal)
    decreases e - k
  {
    if k < e && lines[k] != "" {
      StopsAtEmptyLine(lines, k + 1, e, toReal);
      assert lines[..e][k] == lines[k];
    }
  }

  /** The header's content never matters. */
  lemma {:induction false} HeaderIgnored(h1: string, h2: string, body: Lines, k: nat, toReal: string -> real)
    requires k >= 1
    ensures ValuesFrom([h1] + body, k, toReal) == ValuesFrom([h2] + body, k, toReal)
    decreases |body| + 1 - k
  {
    if k < |body| + 1 {
      assert ([h1] + body)[k] == body[k - 1] == ([h2] + body)[k];
      HeaderIgnored(h1, h2, body, k + 1, toReal);
    }
  }
}
