/**
 * How `readFileLines` cuts one data line into fields.  A field ends at the
 * earlier of the next tab and the next newline (`getline` never leaves a
 * newline in a line, so in practice only tabs count); the last field runs
 * to the end of the line.
 */
module Fields {
  import opened Wrappers

  predicate IsFieldEnd(c: char) { c == '\t' || c == '\n' }

  /** `std::string::find(c, from)`: the first position at or after `from` holding `c`; None stands for `npos`. */
  function Find(s: string, c: char, from: nat): (r: Option<nat>)
    requires from <= |s|
    ensures r.Some? ==> from <= r.value < |s| && s[r.value] == c
    ensures forall k :: from <= k < (if r.Some? then r.value else |s|) ==> s[k] != c
    decreases |s| - from
  {
    if from == |s| then None
    else if s[from] == c then Some(from)
    else Find(s, c, from + 1)
  }

  /** `min` of two `find` results, where `npos` exceeds every position. */
  function MinPos(a: Option<nat>, b: Option<nat>): Option<nat>
  {
    match a
    case None => b
    case Some(x) =>
      match b
      case None => a
      case Some(y) => Some(if x <= y then x else y)
  }

  /** The end of the field that starts at `from`: `min(find('\t', from), find('\n', from))`. */
  function NextEnd(line: string, from: nat): (r: Option<nat>)
    requires from <= |line|
    ensures r.Some? ==> from <= r.value < |line| && IsFieldEnd(line[r.value])
  {
    MinPos(Find(line, '\t', from), Find(line, '\n', from))
  }

  /** The position of the first field end in `s`, if there is one. */
  function FirstEnd(s: string): (r: Option<nat>)
    ensures r.Some? ==> r.value < |s| && IsFieldEnd(s[r.value])
    ensures forall k :: 0 <= k < (if r.Some? then r.value else |s|) ==> !IsFieldEnd(s[k])
  {
    if s == [] then None
    else if IsFieldEnd(s[0]) then Some(0)
    else match FirstEnd(s[1..])
      case None => None
      case Some(k) => Some(k + 1)
  }

  /** The fields of `s`, left to right; a string without a field end is one field. */
  function Split(s: string): (r: seq<string>)
    ensures |r| >= 1
    ensures forall k :: 0 <= k < |r| ==> NoFieldEnd(r[k])
    decreases |s|
  {
    match FirstEnd(s)
    case None => [s]
    case Some(e) => [s[..e]] + Split(s[e + 1..])
  }

  /** The field at index 2, the only one the loader keeps, if the line has one. */
  function ThirdField(line: string): (r: Option<string>)
    ensures r.Some? <==> |Split(line)| >= 3
    ensures r.Some? ==> NoFieldEnd(r.value)
  {
    var fs := Split(line);
    if |fs| > 2 then Some(fs[2]) else None
  }

  /** `s` up to (not including) its first field end. */
  function Head(s: string): string
  {
    match FirstEnd(s)
    case None => s
    case Some(e) => s[..e]
  }

  /** The tab-separated line whose fields are `fs`. */
  function Join(fs: seq<string>): string
    requires |fs| >= 1
  {
    if |fs| == 1 then fs[0] else fs[0] + "\t" + Join(fs[1..])
  }

  /** The number of field ends in `s`. */
  function CountEnds(s: string): nat
  {
    if s == [] then 0 else (if IsFieldEnd(s[0]) then 1 else 0) + CountEnds(s[1..])
  }

  predicate NoFieldEnd(s: string) { forall k :: 0 <= k < |s| ==> !IsFieldEnd(s[k]) }

  /**
   * The scan position the C++ computes from `from` (the `min` of the two
   * `find` calls) is the first field end of the rest of the line.
   */
  lemma FieldEndAt(line: string, from: nat)
    requires from <= |line|
    ensures NextEnd(line, from).None? <==> FirstEnd(line[from..]).None?
    ensures NextEnd(line, from).Some? ==> NextEnd(line, from).value == from + FirstEnd(line[from..]).value
  {
    var t, n := Find(line, '\t', from), Find(line, '\n', from);
    var rest := line[from..];
    // the first position of the rest at which neither a tab nor a newline was excluded
    var bound := if t.Some? && (n.None? || t.value <= n.value) then t
                 else n;
    assert MinPos(t, n) == bound;
    if bound.Some? {
      var x := bound.value;
      forall k | 0 <= k < x - from ensures !IsFieldEnd(rest[k]) {
        assert rest[k] == line[from + k];
      }
      assert rest[x - from] == line[x];
      FirstEndIs(rest, x - from);
    } else {
      forall k | 0 <= k < |rest| ensures !IsFieldEnd(rest[k]) {
        assert rest[k] == line[from + k];
      }
      NoEndNoFirst(rest);
    }
  }

  lemma NoEndNoFirst(s: string)
    requires NoFieldEnd(s)
    ensures FirstEnd(s).None?
  {
  }

  /** A line has one more field than it has field ends. */
  lemma {:induction false} FieldCount(s: string)
    ensures |Split(s)| == CountEnds(s) + 1
    decreases |s|
  {
    match FirstEnd(s)
    case None =>
      NoEndsCountZero(s);
    case Some(e) =>
      FieldCount(s[e + 1..]);
      CountSplitsAt(s, e);
  }

  lemma {:induction false} NoEndsCountZero(s: string)
    requires NoFieldEnd(s)
    ensures CountEnds(s) == 0
    decreases |s|
  {
    if s != [] {
      NoEndsCountZero(s[1..]);
    }
  }

  /** Counting across the first field end at `e`. */
  lemma {:induction false} CountSplitsAt(s: string, e: nat)
    requires e < |s| && IsFieldEnd(s[e]) && NoFieldEnd(s[..e])
    ensures CountEnds(s) == 1 + CountEnds(s[e + 1..])
    decreases e
  {
    if e == 0 {
      assert s[1..] == s[e + 1..];
    } else {
      assert !IsFieldEnd(s[0]);
      assert s[1..][..e - 1] == s[1..e];
      assert s[1..][e - 1 + 1..] == s[e + 1..];
      CountSplitsAt(s[1..], e - 1);
    }
  }

  /** A line contributes a value exactly when it has at least two field ends. */
  lemma ThirdFieldPresent(line: string)
    ensures ThirdField(line).Some? <==> CountEnds(line) >= 2
  {
    FieldCount(line);
  }

  /** Splitting a newline-free line and joining its fields with tabs gives the line back. */
  lemma {:induction false} SplitJoin(s: string)
    requires '\n' !in s
    ensures Join(Split(s)) == s
    ensures forall k :: 0 <= k < |Split(s)| ==> NoFieldEnd(Split(s)[k])
    decreases |s|
  {
    match FirstEnd(s)
    case None =>
    case Some(e) =>
      var rest := s[e + 1..];
      assert '\n' !in rest by {
        forall k | 0 <= k < |rest| ensures rest[k] != '\n' {
          assert rest[k] == s[e + 1 + k];
        }
      }
      SplitJoin(rest);
      assert s[e] == '\t';
      assert Split(s)[1..] == Split(rest);
      assert s == s[..e] + "\t" + rest;
  }

  /** Joining fields that hold no tab or newline and splitting again gives the fields back. */
  lemma {:induction false} JoinSplit(fs: seq<string>)
    requires |fs| >= 1
    requires forall k :: 0 <= k < |fs| ==> NoFieldEnd(fs[k])
    ensures Split(Join(fs)) == fs
    decreases |fs|
  {
    if |fs| > 1 {
      var x := fs[0];
      var rest := Join(fs[1..]);
      var s := x + "\t" + rest;
      assert s[|x|] == '\t';
      FirstEndIs(s, |x|);
      assert s[..|x|] == x;
      assert s[|x| + 1..] == rest;
      JoinSplit(fs[1..]);
    } else {
      assert NoFieldEnd(fs[0]);
      assert FirstEnd(fs[0]).None?;
    }
  }

  /** A field end with none before it is the first field end. */
  lemma FirstEndIs(s: string, e: nat)
    requires e < |s| && IsFieldEnd(s[e])
    requires forall k :: 0 <= k < e ==> !IsFieldEnd(s[k])
    ensures FirstEnd(s) == Some(e)
  {
  }

  /**
   * The value is taken from the text between the second field end and the
   * next one (or the end of the line); what follows that is ignored.
   */
  lemma ThirdFieldText(a: string, b: string, c: string)
    requires NoFieldEnd(a) && NoFieldEnd(b)
    ensures ThirdField(a + "\t" + b + "\t" + c) == Some(Head(c))
  {
    var rest1 := b + "\t" + c;
    assert a + "\t" + b + "\t" + c == a + "\t" + rest1;
    SplitCons(a, rest1);
    SplitCons(b, c);
  }

  /** A separator-free field followed by a tab splits off as the first field. */
  lemma SplitCons(x: string, rest: string)
    requires NoFieldEnd(x)
    ensures Split(x + "\t" + rest) == [x] + Split(rest)
  {
    var s := x + "\t" + rest;
    FirstEndIs(s, |x|);
    assert s[..|x|] == x && s[|x| + 1..] == rest;
  }
}
