/**
 * A whole run of the argc/argv construction on one command line, with
 * matching and with mismatched input files.
 */
module Scenarios {
  import opened Wrappers
  import opened Errors
  import opened Loader
  import opened Scanner
  import opened Pipeline

  const CommandLine: seq<string> :=
    ["-ref", "a.txt", "-alt", "b.txt", "-plaf", "c.txt", "-panel", "d.txt", "-k", "3", "-o", "out1"]

  /** The flags of `CommandLine`, and its operands, none of which starts with a dash. */
  lemma CommandLineTokens()
    ensures FlagOf(CommandLine[0]) == Some(Ref) && FlagOf(CommandLine[2]) == Some(Alt)
    ensures FlagOf(CommandLine[4]) == Some(Plaf) && FlagOf(CommandLine[6]) == Some(Panel)
    ensures FlagOf(CommandLine[8]) == Some(Strains) && FlagOf(CommandLine[10]) == Some(Prefix)
    ensures |CommandLine| == 12
    ensures CommandLine[1] == "a.txt" && CommandLine[3] == "b.txt" && CommandLine[5] == "c.txt"
    ensures CommandLine[7] == "d.txt" && CommandLine[9] == "3" && CommandLine[11] == "out1"
    ensures forall k :: 0 <= k < 6 ==> !StartsWithDash(CommandLine[2 * k + 1])
  {
  }

  /** A string flag with its operand is consumed as a pair, and the scan goes on after it. */
  lemma StringPair(args: seq<string>, i: nat, o: Options, toSize: string -> Option<nat>, f: Flag)
    requires i + 1 < |args| && FlagOf(args[i]) == Some(f) && f.TakesString() && !StartsWithDash(args[i + 1])
    ensures var o' := SetString(o, f, args[i + 1]);
            ScanFrom(args, i, o, toSize) == if i + 2 == |args| then Success(o') else ScanFrom(args, i + 2, o', toSize)
  {
  }

  /** A numeric flag with an operand that converts is consumed as a pair, and the scan goes on after it. */
  lemma SizePair(args: seq<string>, i: nat, o: Options, toSize: string -> Option<nat>, f: Flag)
    requires i + 1 < |args| && FlagOf(args[i]) == Some(f) && !f.TakesString() && f != Help
    requires toSize(args[i + 1]).Some?
    ensures var o' := SetSize(o, f, toSize(args[i + 1]).value);
            ScanFrom(args, i, o, toSize) == if i + 2 == |args| then Success(o') else ScanFrom(args, i + 2, o', toSize)
  {
  }

  /** The options after the first `2 * k` tokens of `CommandLine`, on top of `o`. */
  function BoundAfter(o: Options, k: nat): Options
  {
    var o1 := if k >= 1 then o.(refFile := "a.txt") else o;
    var o2 := if k >= 2 then o1.(altFile := "b.txt") else o1;
    var o3 := if k >= 3 then o2.(plafFile := "c.txt") else o2;
    var o4 := if k >= 4 then o3.(panelFile := "d.txt") else o3;
    var o5 := if k >= 5 then o4.(kStrain := 3) else o4;
    if k >= 6 then o5.(prefix := "out1") else o5
  }

  lemma CommandLineLastPairs(o: Options, toSize: string -> Option<nat>)
    requires toSize("3") == Some(3)
    ensures ScanFrom(CommandLine, 8, BoundAfter(o, 4), toSize) == Success(BoundAfter(o, 6))
  {
    CommandLineTokens();
    SizePair(CommandLine, 8, BoundAfter(o, 4), toSize, Strains);
    StringPair(CommandLine, 10, BoundAfter(o, 5), toSize, Prefix);
  }

  lemma CommandLineMiddlePairs(o: Options, toSize: string -> Option<nat>)
    requires toSize("3") == Some(3)
    ensures ScanFrom(CommandLine, 4, BoundAfter(o, 2), toSize) == Success(BoundAfter(o, 6))
  {
    CommandLineTokens();
    StringPair(CommandLine, 4, BoundAfter(o, 2), toSize, Plaf);
    StringPair(CommandLine, 6, BoundAfter(o, 3), toSize, Panel);
    CommandLineLastPairs(o, toSize);
  }

  /** The options the scan of `CommandLine` binds, after `init()` on a fresh object. */
  lemma CommandLineScan(toSize: string -> Option<nat>)
    requires toSize("3") == Some(3)
    ensures ScanFrom(CommandLine, 0, Initialized(Unset), toSize) ==
              Success(Initialized(Unset).(refFile := "a.txt", altFile := "b.txt", plafFile := "c.txt",
                                          panelFile := "d.txt", kStrain := 3, prefix := "out1"))
  {
    CommandLineTokens();
    var o := Initialized(Unset);
    StringPair(CommandLine, 0, o, toSize, Ref);
    StringPair(CommandLine, 2, BoundAfter(o, 1), toSize, Alt);
    CommandLineMiddlePairs(o, toSize);
  }

  /**
   * With three well-formed files of N data lines each, the run succeeds with
   * N loci, 3 strains, the prefix "out1" and no help requested.
   */
  lemma MatchingFilesRun(files: map<string, Lines>, toReal: string -> real, toSize: string -> Option<nat>)
    requires toSize("3") == Some(3)
    requires "a.txt" in files && "b.txt" in files && "c.txt" in files
    requires WellFormedFile(files["a.txt"]) && WellFormedFile(files["b.txt"]) && WellFormedFile(files["c.txt"])
    requires |files["a.txt"]| == |files["b.txt"]| == |files["c.txt"]|
    ensures var r := ParseSpec(CommandLine, Initialized(Unset), NoData, files, toReal, toSize);
            r.Success? && r.value.1.nLoci == |files["a.txt"]| - 1 &&
            r.value.0.kStrain == 3 && r.value.0.prefix == "out1" && !r.value.0.help
  {
    CommandLineScan(toSize);
    EqualFilesAccepted("a.txt", "b.txt", "c.txt", files, toReal);
  }

  /** If the PLAF file has a different number of data lines, the run stops at the first assertion. */
  lemma MismatchedPlafRun(files: map<string, Lines>, toReal: string -> real, toSize: string -> Option<nat>)
    requires toSize("3") == Some(3)
    requires "a.txt" in files && "b.txt" in files && "c.txt" in files
    requires WellFormedFile(files["a.txt"]) && WellFormedFile(files["b.txt"]) && WellFormedFile(files["c.txt"])
    requires |files["a.txt"]| == |files["b.txt"]| != |files["c.txt"]|
    ensures ParseSpec(CommandLine, Initialized(Unset), NoData, files, toReal, toSize) == Failure(AssertionFailed(PlafMatchesRef))
  {
    CommandLineScan(toSize);
    UnequalFilesRejected("a.txt", "b.txt", "c.txt", files, toReal);
  }
}
