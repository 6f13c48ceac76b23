/**
 * What the two constructions compute end to end: the scan, the path check
 * of `checkInput`, the three loads in the order ref, alt, PLAF, and the two
 * length assertions.
 */
module Pipeline {
  import opened Wrappers
  import opened Errors
  import opened Fields
  import opened Loader
  import opened Scanner

  /** The three loaded sequences and the locus count. */
  datatype Data = Data(refCount: seq<real>, altCount: seq<real>, plaf: seq<real>, nLoci: nat)

  const NoData := Data([], [], [], 0)

  function PathOf(o: Options, f: PathField): string
  {
    match f
    case RefPath => o.refFile
    case AltPath => o.altFile
    case PlafPath => o.plafFile
    case PanelPath => o.panelFile
  }

  /** The position of a path in the order `checkInput` tests them. */
  function Rank(f: PathField): nat
  {
    match f
    case RefPath => 0
    case AltPath => 1
    case PlafPath => 2
    case PanelPath => 3
  }

  /** `checkInput`: the first empty path, in the order ref, alt, PLAF, panel, is reported. */
  function PathCheck(o: Options): (r: Outcome<Error>)
    ensures r.Pass? <==> o.refFile != "" && o.altFile != "" && o.plafFile != "" && o.panelFile != ""
    ensures r.Fail? ==> r.error.InvalidArgument? && r.error.reason.PathMissing?
    ensures r.Fail? ==> var m := r.error.reason.field;
              PathOf(o, m) == "" && forall f: PathField :: Rank(f) < Rank(m) ==> PathOf(o, f) != ""
  {
    if o.refFile == "" then Fail(InvalidArgument(PathMissing(RefPath)))
    else if o.altFile == "" then Fail(InvalidArgument(PathMissing(AltPath)))
    else if o.plafFile == "" then Fail(InvalidArgument(PathMissing(PlafPath)))
    else if o.panelFile == "" then Fail(InvalidArgument(PathMissing(PanelPath)))
    else Pass
  }

  /**
   * The three `readFileLines` calls, appending to what `d` already holds, then
   * `nLoci_ = refCount_.size()` and the two assertions.
   */
  function LoadAll(refPath: string, altPath: string, plafPath: string, d: Data,
                   files: map<string, Lines>, toReal: string -> real): (r: Result<Data, Error>)
    ensures r.Success? ==> r.value.nLoci == |r.value.refCount| == |r.value.altCount| == |r.value.plaf|
    ensures refPath !in files ==> r == Failure(InvalidArgument(InvalidInputFile(refPath)))
    ensures refPath in files && altPath !in files ==> r == Failure(InvalidArgument(InvalidInputFile(altPath)))
    ensures refPath in files && altPath in files && plafPath !in files ==>
              r == Failure(InvalidArgument(InvalidInputFile(plafPath)))
    ensures refPath in files && altPath in files && plafPath in files ==>
              var refCount := d.refCount + FileValues(files[refPath], toReal);
              var altCount := d.altCount + FileValues(files[altPath], toReal);
              var plaf := d.plaf + FileValues(files[plafPath], toReal);
              r == if |refCount| != |plaf| then Failure(AssertionFailed(PlafMatchesRef))
                   else if |altCount| != |refCount| then Failure(AssertionFailed(AltMatchesRef))
                   else Success(Data(refCount, altCount, plaf, |refCount|))
  {
    match Load(refPath, d.refCount, files, toReal)
    case Failure(e) => Failure(e)
    case Success(refCount) =>
      match Load(altPath, d.altCount, files, toReal)
      case Failure(e) => Failure(e)
      case Success(altCount) =>
        match Load(plafPath, d.plaf, files, toReal)
        case Failure(e) => Failure(e)
        case Success(plaf) =>
          var n := |refCount|;
          if n != |plaf| then Failure(AssertionFailed(PlafMatchesRef))
          else if |altCount| != n then Failure(AssertionFailed(AltMatchesRef))
          else Success(Data(refCount, altCount, plaf, n))
  }

  /** The argc/argv construction after `init()`: `parse` with its check and loads. */
  function ParseSpec(args: seq<string>, o: Options, d: Data, files: map<string, Lines>,
                     toReal: string -> real, toSize: string -> Option<nat>): (r: Result<(Options, Data), Error>)
    ensures r.Success? && args != [] ==> r.value.1.nLoci == |r.value.1.refCount| == |r.value.1.altCount| == |r.value.1.plaf|
  {
    if args == [] then Success((o.(help := true), d))
    else
      match ScanFrom(args, 0, o, toSize)
      case Failure(e) => Failure(e)
      case Success(o') =>
        match PathCheck(o')
        case Fail(e) => Failure(e)
        case Pass =>
          match LoadAll(o'.refFile, o'.altFile, o'.plafFile, d, files, toReal)
          case Failure(e) => Failure(e)
          case Success(d') => Success((o', d'))
  }

  /** An empty argument list requests help and does nothing else: no check, no load. */
  lemma EmptyArgsRequestHelp(o: Options, d: Data, files: map<string, Lines>,
                             toReal: string -> real, toSize: string -> Option<nat>)
    ensures ParseSpec([], o, d, files, toReal, toSize) == Success((o.(help := true), d))
  {
  }

  /**
   * A successful parse of a non-empty argument list leaves every required
   * path non-empty and three index-aligned sequences, each the earlier
   * contents followed by what its file yields.  Help being requested does
   * not change this.
   */
  lemma ParseEstablishesInvariant(args: seq<string>, o: Options, d: Data, files: map<string, Lines>,
                                  toReal: string -> real, toSize: string -> Option<nat>)
    requires args != [] && ParseSpec(args, o, d, files, toReal, toSize).Success?
    ensures var (o', d') := ParseSpec(args, o, d, files, toReal, toSize).value;
            Success(o') == ScanFrom(args, 0, o, toSize) &&
            o'.refFile != "" && o'.altFile != "" && o'.plafFile != "" && o'.panelFile != "" &&
            o'.refFile in files && o'.altFile in files && o'.plafFile in files &&
            d'.refCount == d.refCount + FileValues(files[o'.refFile], toReal) &&
            d'.altCount == d.altCount + FileValues(files[o'.altFile], toReal) &&
            d'.plaf == d.plaf + FileValues(files[o'.plafFile], toReal) &&
            d'.nLoci == |d'.refCount| == |d'.altCount| == |d'.plaf|
  {
    var o' := ScanFrom(args, 0, o, toSize).value;
    assert PathCheck(o').Pass?;
    assert LoadAll(o'.refFile, o'.altFile, o'.plafFile, d, files, toReal).Success?;
  }

  /**
   * Only the two assertions are fatal, and they are reached only after a
   * complete scan, a path check that passes and three files that open.
   */
  lemma FatalOnlyAfterLoads(args: seq<string>, o: Options, d: Data, files: map<string, Lines>,
                            toReal: string -> real, toSize: string -> Option<nat>)
    requires ParseSpec(args, o, d, files, toReal, toSize).Failure?
    requires !ParseSpec(args, o, d, files, toReal, toSize).error.IsRecoverable()
    ensures args != [] && ScanFrom(args, 0, o, toSize).Success?
    ensures var o' := ScanFrom(args, 0, o, toSize).value;
            PathCheck(o').Pass? && o'.refFile in files && o'.altFile in files && o'.plafFile in files
  {
  }

  /** Every data line of a file after its header is non-empty and has a third field. */
  predicate WellFormedFile(lines: Lines)
  {
    |lines| >= 1 && forall j :: 1 <= j < |lines| ==> lines[j] != "" && ThirdField(lines[j]).Some?
  }

  /** Three well-formed files with the same number of data lines load into N aligned values each. */
  lemma EqualFilesAccepted(refPath: string, altPath: string, plafPath: string,
                           files: map<string, Lines>, toReal: string -> real)
    requires refPath in files && altPath in files && plafPath in files
    requires WellFormedFile(files[refPath]) && WellFormedFile(files[altPath]) && WellFormedFile(files[plafPath])
    requires |files[refPath]| == |files[altPath]| == |files[plafPath]|
    ensures LoadAll(refPath, altPath, plafPath, NoData, files, toReal).Success?
    ensures LoadAll(refPath, altPath, plafPath, NoData, files, toReal).value.nLoci == |files[refPath]| - 1
  {
    WellFormedFileValues(files[refPath], toReal);
    WellFormedFileValues(files[altPath], toReal);
    WellFormedFileValues(files[plafPath], toReal);
  }

  /** Well-formed files whose data line counts differ fail one of the two assertions. */
  lemma UnequalFilesRejected(refPath: string, altPath: string, plafPath: string,
                             files: map<string, Lines>, toReal: string -> real)
    requires refPath in files && altPath in files && plafPath in files
    requires WellFormedFile(files[refPath]) && WellFormedFile(files[altPath]) && WellFormedFile(files[plafPath])
    requires !(|files[refPath]| == |files[altPath]| == |files[plafPath]|)
    ensures LoadAll(refPath, altPath, plafPath, NoData, files, toReal).Failure?
    ensures LoadAll(refPath, altPath, plafPath, NoData, files, toReal).error.AssertionFailed?
    ensures |files[refPath]| != |files[plafPath]| ==>
              LoadAll(refPath, altPath, plafPath, NoData, files, toReal).error == AssertionFailed(PlafMatchesRef)
    ensures |files[refPath]| == |files[plafPath]| ==>
              LoadAll(refPath, altPath, plafPath, NoData, files, toReal).error == AssertionFailed(AltMatchesRef)
  {
    WellFormedFileValues(files[refPath], toReal);
    WellFormedFileValues(files[altPath], toReal);
    WellFormedFileValues(files[plafPath], toReal);
  }

  /** The flag that binds each required path. */
  function FlagFor(f: PathField): (r: Flag)
    ensures r.TakesString()
    ensures forall o: Options :: StringOf(o, r) == PathOf(o, f)
  {
    match f
    case RefPath => Ref
    case AltPath => Alt
    case PlafPath => Plaf
    case PanelPath => Panel
  }

  /**
   * A command line that never gives `-ref` fails the path check with the
   * ref path missing, before any file is loaded.
   */
  lemma OmittedRefReported(args: seq<string>, d: Data, files: map<string, Lines>,
                           toReal: string -> real, toSize: string -> Option<nat>)
    requires args != [] && ScanFrom(args, 0, Initialized(Unset), toSize).Success?
    requires forall t :: t in args ==> FlagOf(t) != Some(Ref)
    ensures ParseSpec(args, Initialized(Unset), d, files, toReal, toSize) == Failure(InvalidArgument(PathMissing(RefPath)))
  {
    assert args[0..] == args;
    ScanKeepsUnnamed(args, 0, Initialized(Unset), toSize, Ref);
  }

  /**
   * A command line that never gives the flag of path `m` fails the path
   * check, and the path reported is `m` or one checked before it.
   */
  lemma OmittedPathReported(args: seq<string>, m: PathField, d: Data, files: map<string, Lines>,
                            toReal: string -> real, toSize: string -> Option<nat>)
    requires args != [] && ScanFrom(args, 0, Initialized(Unset), toSize).Success?
    requires forall t :: t in args ==> FlagOf(t) != Some(FlagFor(m))
    ensures var r := ParseSpec(args, Initialized(Unset), d, files, toReal, toSize);
            r.Failure? && r.error.InvalidArgument? && r.error.reason.PathMissing? &&
            Rank(r.error.reason.field) <= Rank(m)
  {
    assert args[0..] == args;
    ScanKeepsUnnamed(args, 0, Initialized(Unset), toSize, FlagFor(m));
    var o' := ScanFrom(args, 0, Initialized(Unset), toSize).value;
    assert PathOf(o', m) == "";
  }
}
