/** The command validation of validation.py: the check of one argument against an
    `ArgumentFormat`, and the `Validator`, a fail-fast gate that checks admin rights, then the
    guild context, then the exact argument count, then each argument's format, and sends
    exactly one error message on the first failure. */
module Validation {
  import opened Common
  import opened Decimal
  import FrameworkBot

  datatype ArgumentType = STRING | INTEGER | FLOAT

  /** An inclusive range `(lo, hi)`. */
  datatype Bounds = Bounds(lo: int, hi: int) {
    predicate Contains(x: int) {
      lo <= x <= hi
    }
  }

  /** `ArgumentFormat(type_, range_, length_range)`. For FLOAT the bounds are floating point
      and are not represented here: the whole FLOAT verdict is supplied by the caller. */
  datatype ArgumentFormat = ArgumentFormat(kind: ArgumentType, range: Option<Bounds>, lengthRange: Option<Bounds>)

  /** `ArgumentFormat.validate(arg)`. A STRING format checks only its length range, an
      INTEGER format parses `int(arg)` (a failure gives false, never an exception) and checks
      only its value range. `floatAccepts` stands for the FLOAT branch (`float(arg)` and the
      floating-point comparison). */
  predicate Validate(f: ArgumentFormat, arg: string, floatAccepts: (ArgumentFormat, string) -> bool) {
    if f.kind == STRING && f.lengthRange.Some? then
      f.lengthRange.value.Contains(|arg|)
    else if f.kind == INTEGER then
      match ParseInt(arg)
      case None => false
      case Some(n) => f.range.None? || f.range.value.Contains(n)
    else if f.kind == FLOAT then
      floatAccepts(f, arg)
    else
      true
  }

  /** STRING with a length range accepts exactly the arguments whose length lies within it,
      both ends included. */
  lemma StringLengthInclusive(lo: int, hi: int, range: Option<Bounds>, arg: string, fa: (ArgumentFormat, string) -> bool)
    ensures Validate(ArgumentFormat(STRING, range, Some(Bounds(lo, hi))), arg, fa) <==> lo <= |arg| <= hi
  {
  }

  /** STRING without a length range accepts every argument, the empty string included. */
  lemma StringUnbounded(range: Option<Bounds>, arg: string, fa: (ArgumentFormat, string) -> bool)
    ensures Validate(ArgumentFormat(STRING, range, None), arg, fa)
  {
  }

  /** INTEGER rejects every argument that `int` cannot parse, the empty string included, and
      accepts a parsed value exactly when it lies in the range (any value without a range). */
  lemma IntegerVerdict(f: ArgumentFormat, arg: string, fa: (ArgumentFormat, string) -> bool)
    requires f.kind == INTEGER
    ensures ParseInt(arg).None? ==> !Validate(f, arg, fa)
    ensures !Validate(f, "", fa)
    ensures ParseInt(arg).Some? && f.range.None? ==> Validate(f, arg, fa)
    ensures ParseInt(arg).Some? && f.range.Some? ==>
      (Validate(f, arg, fa) <==> f.range.value.lo <= ParseInt(arg).value <= f.range.value.hi)
  {
  }

  /** An INTEGER format with range `(lo, hi)` accepts the decimal text `str(n)` of a number
      exactly when `lo <= n <= hi`. */
  lemma IntegerAcceptsItsRange(lo: int, hi: int, lengthRange: Option<Bounds>, n: int, fa: (ArgumentFormat, string) -> bool)
    ensures Validate(ArgumentFormat(INTEGER, Some(Bounds(lo, hi)), lengthRange), IntToString(n), fa) <==> lo <= n <= hi
  {
    ParseIntToString(n);
  }

  /** The checks of `validate_command`, in the order the source runs them. */
  datatype Gate = AdminGate | GuildGate | CountGate | FormatGate(index: nat)

  /** The first argument, from position `from` on, that fails its format. */
  function FirstInvalid(formats: seq<ArgumentFormat>, args: seq<string>, from: nat,
                        fa: (ArgumentFormat, string) -> bool): (r: Option<nat>)
    requires |formats| == |args| && from <= |formats|
    ensures r.Some? ==> from <= r.value < |formats| && !Validate(formats[r.value], args[r.value], fa)
    ensures r.Some? ==> forall j :: from <= j < r.value ==> Validate(formats[j], args[j], fa)
    ensures r.None? <==> forall j :: from <= j < |formats| ==> Validate(formats[j], args[j], fa)
    decreases |formats| - from
  {
    if from == |formats| then None
    else if !Validate(formats[from], args[from], fa) then Some(from)
    else FirstInvalid(formats, args, from + 1, fa)
  }

  /** The check at which `validate_command` stops, or None when every check passes. */
  function FirstFailure(requireAdm: bool, requireGuild: bool, formats: seq<ArgumentFormat>,
                        args: seq<string>, authorIsAdmin: bool, inGuild: bool,
                        fa: (ArgumentFormat, string) -> bool): Option<Gate>
  {
    if requireAdm && !authorIsAdmin then Some(AdminGate)
    else if requireGuild && !inGuild then Some(GuildGate)
    else if |formats| != |args| then Some(CountGate)
    else
      match FirstInvalid(formats, args, 0, fa)
      case Some(i) => Some(FormatGate(i))
      case None => None
  }

  /** The verdict and the messages sent for a given first failure. */
  function Report(failure: Option<Gate>, errorMessage: string, footer: string): (bool, seq<Message>) {
    if failure.None? then (true, []) else (false, [Error(errorMessage, footer)])
  }

  /** A command passes exactly when every enabled flag check passes, the argument count
      equals the number of formats and every argument satisfies its format; it then sends
      nothing, and otherwise exactly one error message. */
  lemma VerdictIff(requireAdm: bool, requireGuild: bool, formats: seq<ArgumentFormat>, args: seq<string>,
                   authorIsAdmin: bool, inGuild: bool, fa: (ArgumentFormat, string) -> bool,
                   errorMessage: string, footer: string)
    ensures var (ok, sent) := Report(FirstFailure(requireAdm, requireGuild, formats, args, authorIsAdmin, inGuild, fa), errorMessage, footer);
      && (ok <==> (requireAdm ==> authorIsAdmin) && (requireGuild ==> inGuild) && |formats| == |args| &&
                  forall i :: 0 <= i < |args| ==> Validate(formats[i], args[i], fa))
      && (ok ==> sent == [])
      && (!ok ==> sent == [Error(errorMessage, footer)])
  {
  }

  /** The checks run in order and the first failure decides: a failing admin check hides
      every other failure, a failing guild check hides count and format failures, a count
      mismatch hides format failures, and a format failure names the first bad argument. */
  lemma FailFastOrder(requireAdm: bool, requireGuild: bool, formats: seq<ArgumentFormat>, args: seq<string>,
                      authorIsAdmin: bool, inGuild: bool, fa: (ArgumentFormat, string) -> bool)
    ensures var g := FirstFailure(requireAdm, requireGuild, formats, args, authorIsAdmin, inGuild, fa);
      && (requireAdm && !authorIsAdmin ==> g == Some(AdminGate))
      && ((requireAdm ==> authorIsAdmin) && requireGuild && !inGuild ==> g == Some(GuildGate))
      && ((requireAdm ==> authorIsAdmin) && (requireGuild ==> inGuild) && |formats| != |args| ==> g == Some(CountGate))
      && (g.Some? && g.value.FormatGate? ==>
            |formats| == |args| && g.value.index < |args| && !Validate(formats[g.value.index], args[g.value.index], fa) &&
            forall j :: 0 <= j < g.value.index ==> Validate(formats[j], args[j], fa))
  {
  }

  /** With the default empty format, any non-empty argument list fails (at the count check,
      unless an earlier flag check failed already). */
  lemma EmptyFormatRejectsArguments(requireAdm: bool, requireGuild: bool, args: seq<string>,
                                    authorIsAdmin: bool, inGuild: bool, fa: (ArgumentFormat, string) -> bool)
    requires |args| > 0
    ensures FirstFailure(requireAdm, requireGuild, [], args, authorIsAdmin, inGuild, fa).Some?
  {
  }

  const DEFAULT_ERROR_MESSAGE := "Falha no comando"

  class Validator {
    const bot: FrameworkBot.Bot
    const ctx: Context
    const args: seq<string>
    const errorMessage: string
    const footer: string
    var requireAdm: bool
    var requireGuild: bool
    var argFormat: seq<ArgumentFormat>

    /** `Validator(bot, ctx, footer, error_message, args)`: no flag check and the empty format. */
    constructor (bot: FrameworkBot.Bot, ctx: Context, footer: string, errorMessage: string, args: seq<string>)
      ensures this.bot == bot && this.ctx == ctx && this.footer == footer
      ensures this.errorMessage == errorMessage && this.args == args
      ensures !requireAdm && !requireGuild && argFormat == []
    {
      this.bot := bot;
      this.ctx := ctx;
      this.args := args;
      this.errorMessage := errorMessage;
      this.footer := footer;
      requireAdm := false;
      requireGuild := false;
      argFormat := [];
    }

    /** `require_conditions(adm, guild)`. */
    method RequireConditions(adm: bool, guild: bool)
      modifies this`requireAdm, this`requireGuild
      ensures requireAdm == adm && requireGuild == guild
    {
      requireAdm := adm;
      requireGuild := guild;
    }

    /** `require_arg_format(arg_format)`. */
    method RequireArgFormat(formats: seq<ArgumentFormat>)
      modifies this`argFormat
      ensures argFormat == formats
    {
      argFormat := formats;
    }

    /** `validate_command()`: returns the verdict together with the messages it sent. */
    method ValidateCommand(fa: (ArgumentFormat, string) -> bool) returns (ok: bool, sent: seq<Message>)
      ensures (ok, sent) == Report(FirstFailure(requireAdm, requireGuild, argFormat, args,
                                                bot.IsAdmin(ctx.authorId), ctx.guild.Some?, fa),
                                   errorMessage, footer)
    {
      if requireAdm && !bot.IsAdmin(ctx.authorId) {
        return false, [Error(errorMessage, footer)];
      }
      if requireGuild && ctx.guild.None? {
        return false, [Error(errorMessage, footer)];
      }
      if |argFormat| != |args| {
        return false, [Error(errorMessage, footer)];
      }
      var i := 0;
      while i < |argFormat|
        invariant 0 <= i <= |argFormat|
        invariant FirstInvalid(argFormat, args, i, fa) == FirstInvalid(argFormat, args, 0, fa)
      {
        if !Validate(argFormat[i], args[i], fa) {
          return false, [Error(errorMessage, footer)];
        }
        i := i + 1;
      }
      return true, [];
    }
  }

  /** A command requiring exactly one argument fails with none or two arguments and passes
      with one valid argument. */
  method ExactCountExample(bot: FrameworkBot.Bot, ctx: Context, f: ArgumentFormat, arg: string,
                           fa: (ArgumentFormat, string) -> bool)
    returns (withNone: bool, withOne: bool, withTwo: bool)
    requires Validate(f, arg, fa)
    ensures !withNone && withOne && !withTwo
  {
    var v0 := new Validator(bot, ctx, "f", DEFAULT_ERROR_MESSAGE, []);
    v0.RequireArgFormat([f]);
    var sent;
    withNone, sent := v0.ValidateCommand(fa);
    var v1 := new Validator(bot, ctx, "f", DEFAULT_ERROR_MESSAGE, [arg]);
    v1.RequireArgFormat([f]);
    withOne, sent := v1.ValidateCommand(fa);
    var v2 := new Validator(bot, ctx, "f", DEFAULT_ERROR_MESSAGE, [arg, arg]);
    v2.RequireArgFormat([f]);
    withTwo, sent := v2.ValidateCommand(fa);
  }
}
