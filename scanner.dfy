/**
 * The meaning of `parse`'s scan over the argument tokens: which token binds
 * which option, how many tokens each flag consumes, and which error stops
 * the scan.  `Config.Parse` is proved to compute `ScanFrom`.
 */
module Scanner {
  import opened Wrappers
  import opened Errors

  /** The options the scan binds: the four paths, the output prefix and the scalars. */
  datatype Options = Options(
    refFile: string,
    altFile: string,
    plafFile: string,
    panelFile: string,
    prefix: string,
    precision: nat,
    kStrain: nat,
    seed: nat,
    seedSet: bool,
    help: bool)

  const DefaultPrefix := "pf3k-pfDeconv"

  /** The options of an object whose members were default-initialised. */
  const Unset := Options("", "", "", "", "", 0, 0, 0, false, false)

  /** `init()`: the defaults; the paths are left as they were. */
  function Initialized(o: Options): (r: Options)
    ensures !r.seedSet && r.seed == 0 && !r.help && r.precision == 8
    ensures r.prefix == DefaultPrefix && r.kStrain == 5
    ensures r.refFile == o.refFile && r.altFile == o.altFile && r.plafFile == o.plafFile && r.panelFile == o.panelFile
  {
    o.(seedSet := false, seed := 0, help := false, precision := 8, prefix := DefaultPrefix, kStrain := 5)
  }

  /** The recognised flags. */
  datatype Flag = Ref | Alt | Plaf | Panel | Prefix | Precision | Strains | Seed | Help
  {
    /** The flags read by `readNextStringto`. */
    predicate TakesString() { this in {Ref, Alt, Plaf, Panel, Prefix} }
  }

  /** The chain of comparisons of `parse`: the flag a token names, if any. */
  function FlagOf(token: string): (r: Option<Flag>)
    ensures r.Some? ==> StartsWithDash(token)
    ensures r == Some(Help) <==> token == "-h" || token == "-help"
  {
    if token == "-ref" then Some(Ref)
    else if token == "-alt" then Some(Alt)
    else if token == "-plaf" then Some(Plaf)
    else if token == "-panel" then Some(Panel)
    else if token == "-o" then Some(Prefix)
    else if token == "-p" then Some(Precision)
    else if token == "-k" then Some(Strains)
    else if token == "-seed" then Some(Seed)
    else if token == "-h" || token == "-help" then Some(Help)
    else None
  }

  /** `(*argv_i)[0] == '-'`; an empty token's `[0]` is the terminating null character. */
  predicate StartsWithDash(token: string) { |token| > 0 && token[0] == '-' }

  /**
   * `readNextStringto` on the flag at `i`: the operand is the next token,
   * unless there is none or it starts with a dash.
   */
  function StringOperand(args: seq<string>, i: nat): (r: Result<string, Error>)
    requires i < |args|
    ensures r.Success? <==> i + 1 < |args| && !StartsWithDash(args[i + 1])
    ensures r.Success? ==> r.value == args[i + 1]
    ensures r.Failure? ==> r.error == InvalidArgument(NotEnoughParameters(args[i]))
  {
    if i + 1 == |args| || StartsWithDash(args[i + 1]) then Failure(InvalidArgument(NotEnoughParameters(args[i])))
    else Success(args[i + 1])
  }

  /**
   * `readNextInput<size_t>()` on the flag at `i`: the conversion of the next
   * token is the parameter `toSize`; with no next token it fails too.
   */
  function SizeOperand(args: seq<string>, i: nat, toSize: string -> Option<nat>): (r: Result<nat, Error>)
    requires i < |args|
    ensures r.Success? <==> i + 1 < |args| && toSize(args[i + 1]).Some?
    ensures r.Success? ==> r.value == toSize(args[i + 1]).value
    ensures r.Failure? ==> r.error == OperandNotRead(args[i])
  {
    if i + 1 == |args| then Failure(OperandNotRead(args[i]))
    else match toSize(args[i + 1])
      case None => Failure(OperandNotRead(args[i]))
      case Some(n) => Success(n)
  }

  /** The field a string flag binds. */
  function StringOf(o: Options, f: Flag): string
    requires f.TakesString()
  {
    match f
    case Ref => o.refFile
    case Alt => o.altFile
    case Plaf => o.plafFile
    case Panel => o.panelFile
    case Prefix => o.prefix
  }

  /** The field a numeric flag binds. */
  function SizeOf(o: Options, f: Flag): nat
    requires !f.TakesString() && f != Help
  {
    match f
    case Precision => o.precision
    case Strains => o.kStrain
    case Seed => o.seed
  }

  /** `readto = *argv_i`: the flag's field takes the operand and nothing else changes. */
  function SetString(o: Options, f: Flag, v: string): (r: Options)
    requires f.TakesString()
    ensures StringOf(r, f) == v
    ensures forall g: Flag :: g.TakesString() && g != f ==> StringOf(r, g) == StringOf(o, g)
    ensures r.precision == o.precision && r.kStrain == o.kStrain && r.seed == o.seed
    ensures r.seedSet == o.seedSet && r.help == o.help
  {
    match f
    case Ref => o.(refFile := v)
    case Alt => o.(altFile := v)
    case Plaf => o.(plafFile := v)
    case Panel => o.(panelFile := v)
    case Prefix => o.(prefix := v)
  }

  /** The assignment of a numeric operand: the flag's field takes it, and `-seed` also records that a seed was given. */
  function SetSize(o: Options, f: Flag, n: nat): (r: Options)
    requires !f.TakesString() && f != Help
    ensures SizeOf(r, f) == n
    ensures forall g: Flag :: !g.TakesString() && g != Help && g != f ==> SizeOf(r, g) == SizeOf(o, g)
    ensures r.seedSet == (o.seedSet || f == Seed)
    ensures r.refFile == o.refFile && r.altFile == o.altFile && r.plafFile == o.plafFile
    ensures r.panelFile == o.panelFile && r.prefix == o.prefix && r.help == o.help
  {
    match f
    case Precision => o.(precision := n)
    case Strains => o.(kStrain := n)
    case Seed => o.(seed := n, seedSet := true)
  }

  /**
   * One pass of the do/while body on the token at `i`: the options after it
   * and the position the cursor rests on (the flag for `-h`, else its operand).
   */
  function Step(args: seq<string>, i: nat, o: Options, toSize: string -> Option<nat>): (r: Result<(Options, nat), Error>)
    requires i < |args|
    ensures FlagOf(args[i]).None? ==> r == Failure(InvalidArgument(UnknownArgument(args[i])))
    ensures r.Success? ==> r.value.1 == (if FlagOf(args[i]) == Some(Help) then i else i + 1)
    ensures r.Success? ==> r.value.1 < |args|
  {
    match FlagOf(args[i])
    case None => Failure(InvalidArgument(UnknownArgument(args[i])))
    case Some(f) =>
      if f == Help then Success((o.(help := true), i))
      else if f.TakesString() then
        match StringOperand(args, i)
        case Failure(e) => Failure(e)
        case Success(v) => Success((SetString(o, f, v), i + 1))
      else
        match SizeOperand(args, i, toSize)
        case Failure(e) => Failure(e)
        case Success(n) => Success((SetSize(o, f, n), i + 1))
  }

  /** The scan from the flag at `i` to the end of the tokens or the first error. */
  function ScanFrom(args: seq<string>, i: nat, o: Options, toSize: string -> Option<nat>): (r: Result<Options, Error>)
    requires i < |args|
    ensures r.Failure? ==>
              r.error.OperandNotRead? ||
              (r.error.InvalidArgument? && (r.error.reason.UnknownArgument? || r.error.reason.NotEnoughParameters?))
    decreases |args| - i
  {
    match Step(args, i, o, toSize)
    case Failure(e) => Failure(e)
    case Success((o', j)) =>
      if j + 1 == |args| then Success(o') else ScanFrom(args, j + 1, o', toSize)
  }

  /** A step that succeeds looks at nothing past the tokens it consumed. */
  lemma StepExtends(a: seq<string>, b: seq<string>, i: nat, o: Options, toSize: string -> Option<nat>)
    requires i < |a| && Step(a, i, o, toSize).Success?
    ensures Step(a + b, i, o, toSize) == Step(a, i, o, toSize)
  {
    assert (a + b)[i] == a[i];
    if FlagOf(a[i]) != Some(Help) {
      assert (a + b)[i + 1] == a[i + 1];
    }
  }

  /**
   * Scanning a complete run of flags and then more tokens is scanning the
   * run, then carrying on from its end with the options it produced.
   */
  lemma {:induction false} ScanAppend(a: seq<string>, b: seq<string>, i: nat, o: Options, toSize: string -> Option<nat>)
    requires i < |a| && ScanFrom(a, i, o, toSize).Success? && |b| > 0
    ensures ScanFrom(a + b, i, o, toSize) == ScanFrom(a + b, |a|, ScanFrom(a, i, o, toSize).value, toSize)
    decreases |a| - i
  {
    StepExtends(a, b, i, o, toSize);
    var step := Step(a, i, o, toSize).value;
    if step.1 + 1 < |a| {
      ScanAppend(a, b, step.1 + 1, step.0, toSize);
    }
  }

  /** An unknown token stops the scan: the tokens after it are never looked at. */
  lemma {:induction false} UnknownStopsScan(a: seq<string>, b: seq<string>, i: nat, o: Options, toSize: string -> Option<nat>, t: string)
    requires i < |a| && ScanFrom(a, i, o, toSize) == Failure(InvalidArgument(UnknownArgument(t)))
    ensures ScanFrom(a + b, i, o, toSize) == Failure(InvalidArgument(UnknownArgument(t)))
    ensures FlagOf(t).None? && t in a[i..]
    decreases |a| - i
  {
    assert (a + b)[i] == a[i];
    match Step(a, i, o, toSize)
    case Failure(e) =>
      // operand errors are not UnknownArgument, so the token at i is the culprit
      assert FlagOf(a[i]).None?;
      assert a[i] == a[i..][0];
    case Success((o', j)) =>
      StepExtends(a, b, i, o, toSize);
      UnknownStopsScan(a, b, j + 1, o', toSize, t);
      assert a[j + 1..] == a[i..][j + 1 - i..];
  }

  /** Tokens the scan gets through without an error: none at all, or a run whose scan succeeds. */
  predicate CompleteRun(a: seq<string>, o: Options, toSize: string -> Option<nat>)
  {
    a == [] || ScanFrom(a, 0, o, toSize).Success?
  }

  /** The options after a complete run. */
  function After(a: seq<string>, o: Options, toSize: string -> Option<nat>): Options
    requires CompleteRun(a, o, toSize)
  {
    if a == [] then o else ScanFrom(a, 0, o, toSize).value
  }

  /** Scanning `a + b` from the start is scanning `b` after the run `a`. */
  lemma AfterRun(a: seq<string>, b: seq<string>, o: Options, toSize: string -> Option<nat>)
    requires CompleteRun(a, o, toSize) && |b| > 0
    ensures ScanFrom(a + b, 0, o, toSize) == ScanFrom(a + b, |a|, After(a, o, toSize), toSize)
  {
    if a == [] {
      assert a + b == b;
    } else {
      ScanAppend(a, b, 0, o, toSize);
    }
  }

  /** After a complete run `a`, an unknown token fails the scan, whatever follows it. */
  lemma UnknownAfterRun(a: seq<string>, t: string, b: seq<string>, o: Options, toSize: string -> Option<nat>)
    requires CompleteRun(a, o, toSize)
    requires FlagOf(t).None?
    ensures ScanFrom(a + [t] + b, 0, o, toSize) == Failure(InvalidArgument(UnknownArgument(t)))
  {
    AfterRun(a, [t] + b, o, toSize);
    assert a + [t] + b == a + ([t] + b);
    assert (a + [t] + b)[|a|] == t;
  }

  /** A string flag followed by an operand that does not start with a dash binds it; the last binding wins. */
  lemma StringFlagBinds(a: seq<string>, flag: string, v: string, o: Options, toSize: string -> Option<nat>)
    requires CompleteRun(a, o, toSize)
    requires FlagOf(flag).Some? && FlagOf(flag).value.TakesString() && !StartsWithDash(v)
    ensures ScanFrom(a + [flag, v], 0, o, toSize) == Success(SetString(After(a, o, toSize), FlagOf(flag).value, v))
  {
    AfterRun(a, [flag, v], o, toSize);
    var s := a + [flag, v];
    assert s[|a|] == flag && s[|a| + 1] == v;
  }

  /** A flag that needs an operand fails when it is the last token. */
  lemma FlagWithoutOperand(a: seq<string>, flag: string, o: Options, toSize: string -> Option<nat>)
    requires CompleteRun(a, o, toSize)
    requires FlagOf(flag).Some? && FlagOf(flag).value != Help
    ensures ScanFrom(a + [flag], 0, o, toSize) ==
              Failure(if FlagOf(flag).value.TakesString() then InvalidArgument(NotEnoughParameters(flag)) else OperandNotRead(flag))
  {
    AfterRun(a, [flag], o, toSize);
    assert (a + [flag])[|a|] == flag;
  }

  /** A string flag whose next token starts with a dash fails, whatever follows. */
  lemma DashOperandRejected(a: seq<string>, flag: string, v: string, b: seq<string>, o: Options, toSize: string -> Option<nat>)
    requires CompleteRun(a, o, toSize)
    requires FlagOf(flag).Some? && FlagOf(flag).value.TakesString() && StartsWithDash(v)
    ensures ScanFrom(a + [flag, v] + b, 0, o, toSize) == Failure(InvalidArgument(NotEnoughParameters(flag)))
  {
    var s := a + [flag, v] + b;
    assert s == a + ([flag, v] + b);
    AfterRun(a, [flag, v] + b, o, toSize);
    assert s[|a|] == flag && s[|a| + 1] == v;
  }

  /** `-seed n` sets the seed and records that one was given. */
  lemma SeedRecorded(a: seq<string>, v: string, o: Options, toSize: string -> Option<nat>)
    requires CompleteRun(a, o, toSize)
    requires toSize(v).Some?
    ensures ScanFrom(a + ["-seed", v], 0, o, toSize) ==
              Success(After(a, o, toSize).(seed := toSize(v).value, seedSet := true))
  {
    AfterRun(a, ["-seed", v], o, toSize);
    var s := a + ["-seed", v];
    assert s[|a|] == "-seed" && s[|a| + 1] == v;
  }

  /** `-h` (or `-help`) consumes one token, sets help and does not stop the scan. */
  lemma HelpDoesNotStopScan(a: seq<string>, h: string, b: seq<string>, o: Options, toSize: string -> Option<nat>)
    requires CompleteRun(a, o, toSize)
    requires h == "-h" || h == "-help"
    requires |b| > 0
    ensures ScanFrom(a + [h] + b, 0, o, toSize) ==
              ScanFrom(a + [h] + b, |a| + 1, After(a, o, toSize).(help := true), toSize)
  {
    var s := a + [h] + b;
    assert s == a + ([h] + b);
    AfterRun(a, [h] + b, o, toSize);
    var o' := After(a, o, toSize);
    assert s[|a|] == h && FlagOf(h) == Some(Help);
    assert Step(s, |a|, o', toSize) == Success((o'.(help := true), |a|));
  }

  /** `-h` (or `-help`) as the last token sets help and ends the scan successfully. */
  lemma HelpAsLastToken(a: seq<string>, h: string, o: Options, toSize: string -> Option<nat>)
    requires CompleteRun(a, o, toSize)
    requires h == "-h" || h == "-help"
    ensures ScanFrom(a + [h], 0, o, toSize) == Success(After(a, o, toSize).(help := true))
  {
    AfterRun(a, [h], o, toSize);
    assert (a + [h])[|a|] == h && FlagOf(h) == Some(Help);
  }

  /** A step on a token other than `f` keeps the field `f` binds. */
  lemma StepKeepsUnnamed(args: seq<string>, i: nat, o: Options, toSize: string -> Option<nat>, f: Flag)
    requires i < |args| && Step(args, i, o, toSize).Success? && f.TakesString() && FlagOf(args[i]) != Some(f)
    ensures StringOf(Step(args, i, o, toSize).value.0, f) == StringOf(o, f)
  {
  }

  /**
   * A path or prefix flag that never appears among the scanned tokens leaves
   * its field as it was before the scan.
   */
  lemma {:induction false} ScanKeepsUnnamed(args: seq<string>, i: nat, o: Options, toSize: string -> Option<nat>, f: Flag)
    requires i < |args| && ScanFrom(args, i, o, toSize).Success? && f.TakesString()
    requires forall t :: t in args[i..] ==> FlagOf(t) != Some(f)
    ensures StringOf(ScanFrom(args, i, o, toSize).value, f) == StringOf(o, f)
    decreases |args| - i
  {
    assert args[i] == args[i..][0];
    StepKeepsUnnamed(args, i, o, toSize, f);
    var (o', j) := Step(args, i, o, toSize).value;
    if j + 1 < |args| {
      forall t | t in args[j + 1..] ensures FlagOf(t) != Some(f) {
        assert args[j + 1..] == args[i..][j + 1 - i..];
      }
      ScanKeepsUnnamed(args, j + 1, o', toSize, f);
    }
  }
}
