/** Failure-compatible wrappers shared by every module of the model. */
module Wrappers {

  datatype Option<+T> = None | Some(value: T)

  datatype Result<+T, +E> = Success(value: T) | Failure(error: E)

  /** The result of a step that either completes or stops with an error. */
  datatype Outcome<+E> = Pass | Fail(error: E)
}

/**
 * The errors the configuration loader raises.  Every user-facing error of
 * the loader is a `std::invalid_argument`, told apart only by its text; the
 * two length assertions abort the process instead, and are kept apart from
 * them as a fatal kind.
 */
module Errors {

  /** The four paths `checkInput` requires, declared in the order it checks them. */
  datatype PathField = RefPath | AltPath | PlafPath | PanelPath

  /** The reason carried by a thrown `std::invalid_argument`. */
  datatype Reason =
    | UnknownArgument(token: string)
    | NotEnoughParameters(flag: string)
    | PathMissing(field: PathField)
    | InvalidInputFile(path: string)

  /** The two assertions after the three loads. */
  datatype LociCheck = PlafMatchesRef | AltMatchesRef

  datatype Error =
    | InvalidArgument(reason: Reason)
      /** The numeric operand reader rejected the operand of `flag`; its message is not modelled. */
    | OperandNotRead(flag: string)
      /** A failed `assert`: the process aborts, no exception reaches the caller. */
    | AssertionFailed(check: LociCheck)
  {
    /** Ill-formed input the caller may report, as opposed to a fatal assertion. */
    predicate IsRecoverable() { !AssertionFailed? }
  }

  const UnknownPrefix := "unknown/unexpected argument: "
  const NotEnoughPrefix := "Not enough parameters when parsing options: "
  const InvalidFilePrefix := "Invalid input file. "

  /** The text `what()` returns for each reason. */
  function What(r: Reason): (m: string)
    ensures r.UnknownArgument? ==> |m| >= |r.token| && m[|m| - |r.token|..] == r.token
    ensures r.NotEnoughParameters? ==> |m| >= |r.flag| && m[|m| - |r.flag|..] == r.flag
    ensures r.InvalidInputFile? ==> |m| >= |r.path| && m[|m| - |r.path|..] == r.path
  {
    match r
    case UnknownArgument(token) => UnknownPrefix + token
    case NotEnoughParameters(flag) => NotEnoughPrefix + flag
    case PathMissing(RefPath) => "Ref count file path missing!"
    case PathMissing(AltPath) => "Alt count file path missing!"
    case PathMissing(PlafPath) => "PLAF file path missing!"
    case PathMissing(PanelPath) => "Reference panel file path missing!"
    case InvalidInputFile(path) => InvalidFilePrefix + path
  }

  lemma PrefixCancels(p: string, s: string, t: string)
    requires p + s == p + t
    ensures s == t
  {
    assert s == (p + s)[|p|..];
    assert t == (p + t)[|p|..];
  }

  /** The first and fourth characters of each message, which tell the kinds apart. */
  function Signature(r: Reason): (char, char)
  {
    match r
    case UnknownArgument(_) => ('u', 'n')
    case NotEnoughParameters(_) => ('N', ' ')
    case PathMissing(RefPath) => ('R', ' ')
    case PathMissing(AltPath) => ('A', ' ')
    case PathMissing(PlafPath) => ('P', 'F')
    case PathMissing(PanelPath) => ('R', 'e')
    case InvalidInputFile(_) => ('I', 'a')
  }

  /** A message made of a fixed prefix and a variable part starts with the prefix's characters. */
  lemma PrefixChars(p: string, t: string)
    requires |p| > 3
    ensures |p + t| > 3 && (p + t)[0] == p[0] && (p + t)[3] == p[3]
  {
  }

  /** The signatures of the four fixed messages of `checkInput`, one at a time. */
  lemma RefMissingSignature()
    ensures var m := What(PathMissing(RefPath)); |m| > 3 && m[0] == 'R' && m[3] == ' '
  {
    assert What(PathMissing(RefPath)) == "Ref count file path missing!";
  }

  lemma AltMissingSignature()
    ensures var m := What(PathMissing(AltPath)); |m| > 3 && m[0] == 'A' && m[3] == ' '
  {
    assert What(PathMissing(AltPath)) == "Alt count file path missing!";
  }

  lemma PlafMissingSignature()
    ensures var m := What(PathMissing(PlafPath)); |m| > 3 && m[0] == 'P' && m[3] == 'F'
  {
    assert What(PathMissing(PlafPath)) == "PLAF file path missing!";
  }

  lemma PanelMissingSignature()
    ensures var m := What(PathMissing(PanelPath)); |m| > 3 && m[0] == 'R' && m[3] == 'e'
  {
    var m := "Reference panel file path missing!";
    assert What(PathMissing(PanelPath)) == m;
    assert m[3] == 'e';
  }

  lemma SignatureOf(r: Reason)
    ensures |What(r)| > 3 && What(r)[0] == Signature(r).0 && What(r)[3] == Signature(r).1
  {
    match r
    case UnknownArgument(t) =>
      PrefixChars(UnknownPrefix, t);
    case NotEnoughParameters(f) =>
      PrefixChars(NotEnoughPrefix, f);
    case InvalidInputFile(p) =>
      PrefixChars(InvalidFilePrefix, p);
    case PathMissing(RefPath) => RefMissingSignature();
    case PathMissing(AltPath) => AltMissingSignature();
    case PathMissing(PlafPath) => PlafMissingSignature();
    case PathMissing(PanelPath) => PanelMissingSignature();
  }

  /** Equal messages have equal signatures. */
  lemma SameSignature(r1: Reason, r2: Reason)
    requires What(r1) == What(r2)
    ensures Signature(r1) == Signature(r2)
  {
    SignatureOf(r1);
    SignatureOf(r2);
  }

  /**
   * The message text alone identifies the error: two reasons with the same
   * text are the same reason, down to the token, flag or path they carry.
   */
  lemma WhatInjective(r1: Reason, r2: Reason)
    requires What(r1) == What(r2)
    ensures r1 == r2
  {
    SameSignature(r1, r2);
    match r1
    case UnknownArgument(t1) =>
      PrefixCancels(UnknownPrefix, t1, r2.token);
    case NotEnoughParameters(f1) =>
      PrefixCancels(NotEnoughPrefix, f1, r2.flag);
    case InvalidInputFile(p1) =>
      PrefixCancels(InvalidFilePrefix, p1, r2.path);
    case PathMissing(_) =>
  }
}
