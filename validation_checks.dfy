/** The independent checks of validation/validation_checks.py. Each returns its verdict with
    the messages it sent: none when it passes, exactly one error message when it fails. */
module ValidationChecks {
  import opened Common
  import opened Decimal
  import DiscordBot
  import Validation

  /** This file's own argument types. */
  datatype CheckType = INTEGER | FLOAT

  /** A check's verdict and the messages it sent. */
  function Verdict(passed: bool, error: string, footer: string): (bool, seq<Message>) {
    if passed then (true, []) else (false, [Error(error, footer)])
  }

  /** Every check sends no message when it passes and exactly this one error when it fails. */
  predicate SendsOnlyOnFailure(r: (bool, seq<Message>), error: string, footer: string) {
    (r.0 ==> r.1 == []) && (!r.0 ==> r.1 == [Error(error, footer)])
  }

  /** `require_adm(ctx, bot, error, footer)`: passes iff the author is one of the bot's admins. */
  function RequireAdm(ctx: Context, bot: DiscordBot.Bot, error: string, footer: string): (r: (bool, seq<Message>))
    reads bot
    ensures r.0 <==> ctx.authorId in bot.adminsId
    ensures SendsOnlyOnFailure(r, error, footer)
  {
    Verdict(bot.IsAdmin(ctx.authorId), error, footer)
  }

  /** `require_guild(ctx, error, footer)`: passes iff the command came from a guild. */
  function RequireGuild(ctx: Context, error: string, footer: string): (r: (bool, seq<Message>))
    ensures r.0 <==> ctx.guild.Some?
    ensures SendsOnlyOnFailure(r, error, footer)
  {
    Verdict(ctx.guild.Some?, error, footer)
  }

  /** `require_arg_length_range(ctx, (lo, hi), args, error, footer)`: passes iff
      `lo <= len(args) <= hi`, both ends included. */
  function RequireArgLengthRange(lo: int, hi: int, args: seq<string>, error: string, footer: string): (r: (bool, seq<Message>))
    ensures r.0 <==> lo <= |args| <= hi
    ensures SendsOnlyOnFailure(r, error, footer)
  {
    Verdict(!(|args| < lo || |args| > hi), error, footer)
  }

  /** `require_arg_type(ctx, arg, type_, error, footer)`: INTEGER passes iff `int(arg)`
      succeeds; `floatParses` stands for whether `float(arg)` succeeds. */
  function RequireArgType(arg: string, kind: CheckType, floatParses: string -> bool, error: string, footer: string): (r: (bool, seq<Message>))
    ensures kind == INTEGER ==> (r.0 <==> ParseInt(arg).Some?)
    ensures kind == FLOAT ==> (r.0 <==> floatParses(arg))
    ensures SendsOnlyOnFailure(r, error, footer)
  {
    match kind
    case INTEGER => Verdict(ParseInt(arg).Some?, error, footer)
    case FLOAT => Verdict(floatParses(arg), error, footer)
  }

  /** `require_str_length_range(ctx, arg, (lo, hi), error, footer)`: passes iff
      `lo <= len(arg) <= hi`. */
  function RequireStrLengthRange(arg: string, lo: int, hi: int, error: string, footer: string): (r: (bool, seq<Message>))
    ensures r.0 <==> lo <= |arg| <= hi
    ensures SendsOnlyOnFailure(r, error, footer)
  {
    Verdict(!(|arg| < lo || |arg| > hi), error, footer)
  }

  /** `require_int_range(ctx, arg, (lo, hi), error, footer)`: passes iff `lo <= arg <= hi`. */
  function RequireIntRange(arg: int, lo: int, hi: int, error: string, footer: string): (r: (bool, seq<Message>))
    ensures r.0 <==> lo <= arg <= hi
    ensures SendsOnlyOnFailure(r, error, footer)
  {
    Verdict(!(arg < lo || arg > hi), error, footer)
  }

  /** The string-length check agrees with a STRING `ArgumentFormat` of validation.py that
      has the same length range. */
  lemma StrLengthAgreesWithFormat(arg: string, lo: int, hi: int, error: string, footer: string,
                                  fa: (Validation.ArgumentFormat, string) -> bool)
    ensures RequireStrLengthRange(arg, lo, hi, error, footer).0 ==
      Validation.Validate(Validation.ArgumentFormat(Validation.STRING, None, Some(Validation.Bounds(lo, hi))), arg, fa)
  {
  }

  /** The type check followed by the range check on the parsed value accepts exactly what an
      INTEGER `ArgumentFormat` of validation.py with that range accepts. */
  lemma IntChecksAgreeWithFormat(arg: string, lo: int, hi: int, floatParses: string -> bool,
                                 error: string, footer: string,
                                 fa: (Validation.ArgumentFormat, string) -> bool)
    ensures (RequireArgType(arg, INTEGER, floatParses, error, footer).0 &&
             RequireIntRange(ParseInt(arg).value, lo, hi, error, footer).0) ==
      Validation.Validate(Validation.ArgumentFormat(Validation.INTEGER, Some(Validation.Bounds(lo, hi)), None), arg, fa)
  {
  }

  /** Every in-range integer written in decimal passes both integer checks. */
  lemma IntChecksAcceptDecimal(n: int, lo: int, hi: int, floatParses: string -> bool, error: string, footer: string)
    requires lo <= n <= hi
    ensures RequireArgType(IntToString(n), INTEGER, floatParses, error, footer).0
    ensures ParseInt(IntToString(n)) == Some(n) && RequireIntRange(n, lo, hi, error, footer).0
  {
    ParseIntToString(n);
  }

  /** The ranged count check with `lo == hi == n` is the exact count check of a validator
      `validate_command` with `n` formats. */
  lemma RangedCountWithEqualEnds(args: seq<string>, formats: seq<Validation.ArgumentFormat>, error: string, footer: string)
    ensures RequireArgLengthRange(|formats|, |formats|, args, error, footer).0 <==> |formats| == |args|
  {
  }
}
