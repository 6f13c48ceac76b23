/**
 * The configuration object `PfDeconvIO`: its fields, `init`, `parse` with
 * its operand readers and `checkInput`, and the two constructions.  The
 * argument cursor `argv_i` is the index `cursor` into `args`.
 */
module PfDeconvIO {
  import opened Wrappers
  import opened Errors
  import opened Loader
  import opened Scanner
  import opened Pipeline

  class Config {
    var args: seq<string>
    var cursor: nat
    var refFileName: string
    var altFileName: string
    var plafFileName: string
    var panelFileName: string
    var prefix: string
    var precision: nat
    var kStrain: nat
    var randomSeed: nat
    var seedSet: bool
    var help: bool
    var refCount: seq<real>
    var altCount: seq<real>
    var plaf: seq<real>
    var nLoci: nat

    /** The options the fields hold. */
    function Opts(): Options
      reads this
    {
      Options(refFileName, altFileName, plafFileName, panelFileName, prefix,
              precision, kStrain, randomSeed, seedSet, help)
    }

    /** The loaded data the fields hold. */
    function Loaded(): Data
      reads this
    {
      Data(refCount, altCount, plaf, nLoci)
    }

    /**
     * A new object before any constructor body runs: empty strings and
     * sequences.  The C++ leaves the scalar members unset; here they are 0
     * and false.
     */
    constructor ()
      ensures args == [] && cursor == 0
      ensures Opts() == Unset && Loaded() == NoData
    {
      args, cursor := [], 0;
      refFileName, altFileName, plafFileName, panelFileName, prefix := "", "", "", "", "";
      precision, kStrain, randomSeed, seedSet, help := 0, 0, 0, false, false;
      refCount, altCount, plaf, nLoci := [], [], [], 0;
    }

    /** `init()`: the defaults, and the cursor at the first token. */
    method Init()
      modifies this
      ensures !seedSet && randomSeed == 0 && !help && precision == 8 && prefix == DefaultPrefix && kStrain == 5 && cursor == 0
      ensures unchanged(this`refFileName, this`altFileName, this`plafFileName, this`panelFileName)
      ensures unchanged(this`args, this`refCount, this`altCount, this`plaf, this`nLoci)
    {
      seedSet := false;
      randomSeed := 0;
      help := false;
      precision := 8;
      prefix := DefaultPrefix;
      kStrain := 5;
      cursor := 0;
    }

    /**
     * `readNextStringto(readto)`: moves the cursor from the flag to its
     * operand and stores the operand in `readto`, the field named by `f`.
     * On failure nothing is stored.
     */
    method ReadNextStringTo(f: Flag) returns (r: Outcome<Error>)
      requires cursor < |args| && f.TakesString()
      modifies this`cursor, this`refFileName, this`altFileName, this`plafFileName, this`panelFileName, this`prefix
      ensures cursor == old(cursor) + 1
      ensures var v := StringOperand(args, old(cursor));
              (v.Failure? ==> r == Fail(v.error) && Opts() == old(Opts())) &&
              (v.Success? ==> r == Pass && Opts() == SetString(old(Opts()), f, v.value))
    {
      var flag := args[cursor];
      cursor := cursor + 1;
      if cursor == |args| || StartsWithDash(args[cursor]) {
        return Fail(InvalidArgument(NotEnoughParameters(flag)));
      }
      match f {
        case Ref => refFileName := args[cursor];
        case Alt => altFileName := args[cursor];
        case Plaf => plafFileName := args[cursor];
        case Panel => panelFileName := args[cursor];
        case Prefix => prefix := args[cursor];
      }
      return Pass;
    }

    /** `readNextInput<size_t>()`: moves the cursor to the operand and converts it with `toSize`. */
    method ReadNextSize(toSize: string -> Option<nat>) returns (r: Result<nat, Error>)
      requires cursor < |args|
      modifies this`cursor
      ensures cursor == old(cursor) + 1
      ensures r == SizeOperand(args, old(cursor), toSize)
    {
      var flag := args[cursor];
      cursor := cursor + 1;
      if cursor == |args| {
        return Failure(OperandNotRead(flag));
      }
      match toSize(args[cursor])
      case None => return Failure(OperandNotRead(flag));
      case Some(n) => return Success(n);
    }

    /** `checkInput()`: reports the first empty path in the order ref, alt, PLAF, panel. */
    method CheckInput() returns (r: Outcome<Error>)
      ensures r == PathCheck(Opts())
    {
      if |refFileName| == 0 {
        return Fail(InvalidArgument(PathMissing(RefPath)));
      }
      if |altFileName| == 0 {
        return Fail(InvalidArgument(PathMissing(AltPath)));
      }
      if |plafFileName| == 0 {
        return Fail(InvalidArgument(PathMissing(PlafPath)));
      }
      if |panelFileName| == 0 {
        return Fail(InvalidArgument(PathMissing(PanelPath)));
      }
      return Pass;
    }

    /**
     * The three `readFileLines` calls into refCount, altCount and plaf, in
     * that order, then `nLoci_ = refCount_.size()` and the two assertions.
     */
    method LoadFiles(files: map<string, Lines>, toReal: string -> real) returns (r: Outcome<Error>)
      modifies this
      ensures unchanged(this`args, this`refFileName, this`altFileName, this`plafFileName, this`panelFileName, this`prefix)
      ensures unchanged(this`precision, this`kStrain, this`randomSeed, this`seedSet, this`help, this`cursor)
      ensures var spec := LoadAll(refFileName, altFileName, plafFileName, old(Loaded()), files, toReal);
              (spec.Failure? ==> r == Fail(spec.error)) &&
              (spec.Success? ==> r == Pass && Loaded() == spec.value)
    {
      var res := ReadFileLines(refFileName, refCount, files, toReal);
      if res.Failure? {
        return Fail(res.error);
      }
      refCount := res.value;
      res := ReadFileLines(altFileName, altCount, files, toReal);
      if res.Failure? {
        return Fail(res.error);
      }
      altCount := res.value;
      res := ReadFileLines(plafFileName, plaf, files, toReal);
      if res.Failure? {
        return Fail(res.error);
      }
      plaf := res.value;
      nLoci := |refCount|;
      if nLoci != |plaf| {
        return Fail(AssertionFailed(PlafMatchesRef));
      }
      if |altCount| != nLoci {
        return Fail(AssertionFailed(AltMatchesRef));
      }
      return Pass;
    }

    /**
     * One pass of `parse`'s do/while body: bind the flag under the cursor,
     * leaving the cursor on the last token it consumed.
     */
    method ScanToken(toSize: string -> Option<nat>) returns (r: Outcome<Error>)
      requires cursor < |args|
      modifies this
      ensures unchanged(this`args, this`refCount, this`altCount, this`plaf, this`nLoci)
      ensures var step := Step(args, old(cursor), old(Opts()), toSize);
              (step.Failure? ==> r == Fail(step.error)) &&
              (step.Success? ==> r == Pass && Opts() == step.value.0 && cursor == step.value.1)
    {
      // the chain of comparisons at pfDeconvIO.cpp:73-93 is FlagOf
      var token := args[cursor];
      match FlagOf(token) {
      case None =>
        return Fail(InvalidArgument(UnknownArgument(token)));
      case Some(f) =>
        if f == Help {
          help := true;
          return Pass;
        } else if f.TakesString() {
          r := ReadNextStringTo(f);
        } else {
          var v := ReadNextSize(toSize);
          if v.Failure? {
            return Fail(v.error);
          }
          StoreSize(f, v.value);
          return Pass;
        }
      }
    }

    /** The assignment of a numeric operand to the field of its flag (pfDeconvIO.cpp:84-89). */
    method StoreSize(f: Flag, n: nat)
      requires !f.TakesString() && f != Help
      modifies this`precision, this`kStrain, this`randomSeed, this`seedSet
      ensures Opts() == SetSize(old(Opts()), f, n)
    {
      match f
      case Precision => precision := n;
      case Strains => kStrain := n;
      case Seed =>
        randomSeed := n;
        seedSet := true;
    }

    /**
     * `parse()`: with no tokens, request help and stop; otherwise scan every
     * token, then check the paths and load the three files.
     */
    method Parse(files: map<string, Lines>, toReal: string -> real, toSize: string -> Option<nat>)
      returns (r: Outcome<Error>)
      requires cursor == 0
      modifies this
      ensures args == old(args)
      ensures old(args) == [] ==> r == Pass && Opts() == old(Opts()).(help := true) && Loaded() == old(Loaded())
      ensures var spec := ParseSpec(old(args), old(Opts()), old(Loaded()), files, toReal, toSize);
              (spec.Failure? ==> r == Fail(spec.error)) &&
              (spec.Success? ==> r == Pass && Opts() == spec.value.0 && Loaded() == spec.value.1)
    {
      if |args| == 0 {
        help := true;
        return Pass;
      }
      ghost var scan := ScanFrom(args, 0, Opts(), toSize);
      while true
        invariant cursor < |args|
        invariant args == old(args) && Loaded() == old(Loaded())
        invariant scan == ScanFrom(args, cursor, Opts(), toSize)
        decreases |args| - cursor
      {
        r := ScanToken(toSize);
        if r.Fail? {
          return;
        }
        cursor := cursor + 1;
        if cursor == |args| {
          break;
        }
      }
      assert scan == Success(Opts());
      r := CheckInput();
      if r.Fail? {
        return;
      }
      r := LoadFiles(files, toReal);
    }

    /**
     * The construction from `argc`/`argv`: the tokens after the program
     * name, `init()`, then `parse()`.
     */
    static method FromCommandLine(argv: seq<string>, files: map<string, Lines>,
                                  toReal: string -> real, toSize: string -> Option<nat>)
      returns (c: Config, r: Outcome<Error>)
      requires |argv| >= 1
      ensures fresh(c) && c.args == argv[1..]
      ensures var spec := ParseSpec(argv[1..], Initialized(Unset), NoData, files, toReal, toSize);
              (spec.Failure? ==> r == Fail(spec.error)) &&
              (spec.Success? ==> r == Pass && c.Opts() == spec.value.0 && c.Loaded() == spec.value.1)
    {
      c := new Config();
      c.args := argv[1..];
      c.Init();
      r := c.Parse(files, toReal, toSize);
    }

    /**
     * The construction from three file names and a strain count: the three
     * loads and the assertions, then the strain count.  It neither calls
     * `init()` nor checks that the paths are non-empty.
     */
    static method FromFiles(plafFile: string, refFile: string, altFile: string, strains: nat,
                            files: map<string, Lines>, toReal: string -> real)
      returns (c: Config, r: Outcome<Error>)
      ensures fresh(c)
      ensures c.refFileName == refFile && c.altFileName == altFile && c.plafFileName == plafFile
      ensures c.panelFileName == "" && c.prefix == ""
      ensures var spec := LoadAll(refFile, altFile, plafFile, NoData, files, toReal);
              (spec.Failure? ==> r == Fail(spec.error)) &&
              (spec.Success? ==> r == Pass && c.Loaded() == spec.value && c.kStrain == strains)
    {
      c := new Config();
      c.plafFileName := plafFile;
      c.altFileName := altFile;
      c.refFileName := refFile;
      r := c.LoadFiles(files, toReal);
      if r.Fail? {
        return;
      }
      c.kStrain := strains;
    }
  }
}
