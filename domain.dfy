/**
 * The values, exceptions and replies that flow through the dispatcher, and the
 * domain layer it calls into (the `commands` and `accounting` modules), which
 * this model treats as an abstract service: a record of functions whose
 * results are either a value or the exception the real service would raise.
 */
module Domain {
  import opened Wrappers

  /** An exact rational as Python's `Fraction` stores it. */
  datatype Rational = Rational(numerator: int, denominator: int)

  /** The greatest common divisor, by Euclid's algorithm. */
  function Gcd(a: nat, b: nat): nat
    decreases b
  {
    if b == 0 then a else Gcd(b, a % b)
  }

  /** A `Fraction`: in lowest terms, with a positive denominator. */
  type Fraction = f: Rational | f.denominator > 0
    && Gcd(if f.numerator < 0 then -f.numerator else f.numerator, f.denominator) == 1
    witness Rational(0, 1)

  /** The exact value of a fraction. */
  function AsReal(f: Fraction): real
  {
    f.numerator as real / f.denominator as real
  }

  /** An account identifier as produced by `accounting.parse_account_id`. */
  datatype AccountId = AccountId(canonical: string)

  /** The dynamically typed values a coercer produces and a handler receives. */
  datatype Value =
    | Str(s: string)           // a `str`
    | Int(i: int)              // an `int`
    | Frac(f: Fraction)        // a `Fraction`
    | Account(id: AccountId)   // an `AccountId`
    | Level(name: string)      // a member of the `Authorization` enumeration
    | Nothing                  // `None`

  /** The exception classes the dispatcher tells apart. */
  datatype ErrorKind =
    | ValueError               // builtin `ValueError`
    | KeyError                 // builtin `KeyError`
    | IndexError               // builtin `IndexError`
    | TypeError                // builtin `TypeError`, e.g. a call with the wrong number of arguments
    | ValueCommand             // `commands.ValueCommandException`
    | AccountCommand           // `commands.AccountCommandException`
    | UnauthorizedCommand      // `commands.UnauthorizedCommandException`
    | ProcessCommand           // `commands.ProcessCommandException`
    | OtherError               // anything else, e.g. `ZeroDivisionError` from `Fraction("1/0")`

  /** A raised exception; `message` is what `str(e)` gives. */
  datatype Error = Error(kind: ErrorKind, message: string)

  /**
   * What a handler returns: a plain message, or the record
   * `{"response": ..., "to_be_muted": ...}` that tells the bot to mute someone.
   */
  datatype Reply = Message(text: string) | Structured(response: string, toBeMuted: Value)

  /** A public account as `commands.list_public_accounts` lists it. */
  datatype PublicAccount = PublicAccount(id: AccountId, balance: Fraction)

  /** A handler parameter name together with the value passed in that position. */
  datatype Binding = Binding(param: string, value: Value)

  /**
   * The domain layer. Every operation is total: it returns a value or the
   * exception it would raise. `call` stands for the one-line handlers whose
   * only work is one service call and a fixed reply.
   */
  datatype Service = Service(
    parseInt: string -> Result<int, Error>,                        // int(token)
    parseFraction: string -> Result<Fraction, Error>,              // Fraction(token)
    parseAccountId: string -> Result<AccountId, Error>,            // accounting.parse_account_id
    authorizationNames: seq<string>,                               // names of the Authorization members
    verifyProxy: (Value, Value, Value, string) -> Result<bool, Error>,
    publicAccounts: Value -> Result<seq<PublicAccount>, Error>,    // commands.list_public_accounts
    openAccount: (Value, Value) -> Result<(), Error>,              // commands.open_account
    printMoney: (Value, Value, Value) -> Result<(), Error>,        // commands.print_money
    shootAccount: (Value, Value, Value) -> Result<bool, Error>,    // commands.shoot_account
    show: Value -> string,                                         // f"{value}"
    renderRow: (nat, PublicAccount) -> string,                     // one formatted leader-board row
    call: (string, Value, seq<Binding>, string) -> Result<Reply, Error>)
}
