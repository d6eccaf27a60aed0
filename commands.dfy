/**
 * The `_Command` record and everything computed from one command without
 * dispatching it: usage text, the per-parameter coercers, the argument parser
 * and the small display helpers (`_mixed`, the leader-board selection).
 */
module Commands {
  import opened Wrappers
  import opened Text
  import opened Domain
  import Sorting

  /** The coercion a parameter declares (the callable stored beside its help text). */
  datatype Coercer =
    | AsText            // str
    | AsInt             // int
    | AsFraction        // Fraction
    | AsAccountId       // parse_account_id
    | AsAuthorization   // lambda s: {a.name.lower(): a for a in Authorization}[s.lower()]
    | AsLimit           // lambda x: None if int(x) < 0 else int(x)

  /** One entry of a command's argument dictionary: name -> (coercer, help). */
  datatype Param = Param(name: string, coercer: Coercer, help: string)

  /**
   * The function a command runs. `Glue` stands for a handler that makes one
   * service call and echoes a fixed reply; it records the handler's Python name
   * and the names of its positional parameters between `author` and `rest`.
   */
  datatype Handler =
    | Glue(routine: string, params: seq<string>)
    | OpenAccount
    | LeaderBoard
    | PrintMoney
    | Shoot
    | Proxy
    | ProxyDsa
    | Help

  /** The positional parameters the handler's Python definition declares between `author` and `rest`. */
  function Params(h: Handler): seq<string>
  {
    match h
    case Glue(_, params) => params
    case OpenAccount => []
    case LeaderBoard => ["limit"]
    case PrintMoney => ["amount", "account"]
    case Shoot => ["victim"]
    case Proxy => ["account", "command"]
    case ProxyDsa => ["account", "signature", "command"]
    case Help => []
  }

  /** An instance of `_Command`. */
  datatype Command = Command(name: string, args: seq<Param>, handler: Handler, description: string)

  /** `cmd.copy()` followed by `cmd.name = alias`. */
  function Renamed(c: Command, alias: string): (r: Command)
    ensures r.name == alias
    ensures r.args == c.args && r.handler == c.handler && r.description == c.description
  {
    c.(name := alias)
  }

  function ArgNames(args: seq<Param>): (names: seq<string>)
    ensures |names| == |args|
    ensures forall i :: 0 <= i < |args| ==> names[i] == args[i].name
  {
    seq(|args|, i requires 0 <= i < |args| => args[i].name)
  }

  function OptionLine(p: Param): string
  {
    "    " + p.name + " -- " + p.help
  }

  function OptionLines(args: seq<Param>): (lines: seq<string>)
    ensures |lines| == |args|
    ensures forall i :: 0 <= i < |args| ==> lines[i] == OptionLine(args[i])
  {
    seq(|args|, i requires 0 <= i < |args| => OptionLine(args[i]))
  }

  function UsageHeader(c: Command): string
  {
    "Usage: " + c.name + " " + Join(" ", ArgNames(c.args))
  }

  /** `_Command.usage()`. */
  function Usage(c: Command): string
  {
    Join("\n", [UsageHeader(c), c.description, "Options: ", Join("\n", OptionLines(c.args))])
  }

  /** No name, description or help text of the command contains a line break. */
  predicate SingleLineTexts(c: Command)
  {
    && '\n' !in c.name && '\n' !in c.description
    && forall i :: 0 <= i < |c.args| ==> '\n' !in c.args[i].name && '\n' !in c.args[i].help
  }

  lemma JoinFree(sep: string, c: char, parts: seq<string>)
    requires c !in sep
    requires forall i :: 0 <= i < |parts| ==> c !in parts[i]
    ensures c !in Join(sep, parts)
    decreases |parts|
  {
    if |parts| > 1 { JoinFree(sep, c, parts[1..]); }
  }

  /**
   * The usage text is the header line, the description, the line `Options: `
   * and then exactly one option line per declared argument, in declaration
   * order; a command without arguments ends in one empty line instead.
   */
  lemma UsageLines(c: Command)
    requires SingleLineTexts(c)
    ensures SplitOn('\n', Usage(c))
         == [UsageHeader(c), c.description, "Options: "]
            + (if c.args == [] then [""] else OptionLines(c.args))
  {
    var names := ArgNames(c.args);
    var options := OptionLines(c.args);
    JoinFree(" ", '\n', names);
    assert '\n' !in UsageHeader(c);
    forall i | 0 <= i < |options| ensures '\n' !in options[i] {
      assert options[i] == "    " + c.args[i].name + " -- " + c.args[i].help;
    }
    var head := [UsageHeader(c), c.description, "Options: "];
    var body := Join("\n", options);
    assert Usage(c) == Join("\n", head + [body]) by {
      assert head + [body] == [UsageHeader(c), c.description, "Options: ", body];
    }
    if c.args == [] {
      assert body == "";
      SplitOnJoin('\n', head + [body]);
    } else {
      var parts := head + options;
      JoinConcat("\n", head, options);
      JoinConcat("\n", head, [body]);
      assert forall i :: 0 <= i < |parts| ==> '\n' !in parts[i] by {
        forall i | 0 <= i < |parts| ensures '\n' !in parts[i] {
          if i >= 3 { assert parts[i] == options[i - 3]; }
        }
      }
      SplitOnJoin('\n', parts);
    }
  }

  /** `{a.name.lower(): a for a in Authorization}`. */
  function LevelTable(names: seq<string>): map<string, string>
  {
    if names == [] then map[]
    else LevelTable(names[..|names| - 1])[Lower(names[|names| - 1]) := names[|names| - 1]]
  }

  /** `names[i]` is the last of `names` whose lower-cased name is `k`. */
  predicate LastNamed(names: seq<string>, i: int, k: string)
  {
    0 <= i < |names| && Lower(names[i]) == k && forall j :: i < j < |names| ==> Lower(names[j]) != k
  }

  /**
   * Every member's lower-cased name is a key, and each key holds the last
   * member with that lower-cased name: later members win on a clash.
   */
  lemma {:induction false} LevelTableLookup(names: seq<string>)
    ensures forall i :: 0 <= i < |names| ==> Lower(names[i]) in LevelTable(names)
    ensures forall k :: k in LevelTable(names) ==>
      exists i :: LastNamed(names, i, k) && LevelTable(names)[k] == names[i]
    decreases |names|
  {
    if names != [] {
      var prefix, last := names[..|names| - 1], |names| - 1;
      LevelTableLookup(prefix);
      var m := LevelTable(names);
      assert forall i :: 0 <= i < |prefix| ==> prefix[i] == names[i];
      forall k | k in m ensures exists i :: LastNamed(names, i, k) && m[k] == names[i] {
        if k == Lower(names[last]) {
          assert LastNamed(names, last, k);
        } else {
          var i :| LastNamed(prefix, i, k) && LevelTable(prefix)[k] == prefix[i];
          assert LastNamed(names, i, k);
        }
      }
    }
  }

  /** The leader-board limit coercer applied to an already parsed integer. */
  function LimitValue(n: int): (v: Value)
    ensures n < 0 <==> v == Nothing
    ensures n >= 0 <==> v == Int(n)
  {
    if n < 0 then Nothing else Int(n)
  }

  /** Applies one parameter's coercer to one token. */
  function Coerce(svc: Service, c: Coercer, token: string): Result<Value, Error>
  {
    match c
    case AsText => Success(Str(token))
    case AsInt =>
      (match svc.parseInt(token) case Success(n) => Success(Int(n)) case Failure(e) => Failure(e))
    case AsFraction =>
      (match svc.parseFraction(token) case Success(f) => Success(Frac(f)) case Failure(e) => Failure(e))
    case AsAccountId =>
      (match svc.parseAccountId(token) case Success(a) => Success(Account(a)) case Failure(e) => Failure(e))
    case AsAuthorization =>
      var levels := LevelTable(svc.authorizationNames);
      var key := Lower(token);
      if key in levels then Success(Level(levels[key]))
      else Failure(Error(KeyError, "'" + key + "'"))
    case AsLimit =>
      (match svc.parseInt(token) case Success(n) => Success(LimitValue(n)) case Failure(e) => Failure(e))
  }

  /** Only the `str` coercer produces text, and then exactly its token. */
  lemma CoerceText(svc: Service, c: Coercer, token: string)
    ensures Coerce(svc, c, token).Success? && Coerce(svc, c, token).value.Str?
        <==> c == AsText
    ensures c == AsText ==> Coerce(svc, c, token) == Success(Str(token))
  {
  }

  function Min(a: int, b: int): int { if a < b then a else b }

  /**
   * The lazy `map(coerce, params, tokens)` forced by `list(...)`: coerces
   * pairs left to right, stops at the shorter input and raises the first
   * coercer's exception.
   */
  function CoerceAll(svc: Service, params: seq<Param>, tokens: seq<string>): (r: Result<seq<Value>, Error>)
    ensures r.Success? ==>
      && |r.value| == Min(|params|, |tokens|)
      && forall i :: 0 <= i < |r.value| ==> Coerce(svc, params[i].coercer, tokens[i]) == Success(r.value[i])
    decreases |params|
  {
    if params == [] || tokens == [] then Success([])
    else
      match Coerce(svc, params[0].coercer, tokens[0])
      case Failure(e) => Failure(e)
      case Success(v) =>
        match CoerceAll(svc, params[1..], tokens[1..])
        case Failure(e) => Failure(e)
        case Success(vs) => Success([v] + vs)
  }

  /** What `_parse_command_args` returns: the coerced values and the re-joined surplus. */
  datatype Parsed = Parsed(args: seq<Value>, rest: string)

  /** Every declared coercer accepts the token in its position. */
  predicate AllCoerce(svc: Service, params: seq<Param>, tokens: seq<string>)
    requires |params| <= |tokens|
  {
    forall i :: 0 <= i < |params| ==> Coerce(svc, params[i].coercer, tokens[i]).Success?
  }

  /** `_parse_command_args(cmd, message)`. */
  function ParseArgs(svc: Service, c: Command, message: string): Result<Parsed, Error>
  {
    var split := Words(message);
    if split == [] then Failure(Error(IndexError, "list index out of range"))
    else if c.name != split[0] then Failure(Error(ValueError, "Command message does not match command"))
    else
      match CoerceAll(svc, c.args, split[1..])
      case Failure(e) => Failure(e)
      case Success(args) =>
        if |args| < |c.args| then Failure(Error(ValueError, "Not enough arguments"))
        else Success(Parsed(args, Join(" ", split[1 + |c.args|..])))
  }

  /**
   * The parse succeeds exactly when the first token is the command's name,
   * at least one token per declared argument follows and every declared
   * coercer accepts its token; the values are then the coercions in
   * declaration order and `rest` re-joins the surplus tokens with single
   * spaces.
   */
  lemma ParseArgsSpec(svc: Service, c: Command, message: string)
    ensures var split, r := Words(message), ParseArgs(svc, c, message);
      r.Success? <==>
        (&& split != [] && split[0] == c.name
         && |split| > |c.args| && AllCoerce(svc, c.args, split[1..]))
    ensures var split, r := Words(message), ParseArgs(svc, c, message);
      r.Success? ==>
        && |r.value.args| == |c.args|
        && (forall i :: 0 <= i < |c.args| ==> Coerce(svc, c.args[i].coercer, split[i + 1]) == Success(r.value.args[i]))
        && r.value.rest == Join(" ", split[1 + |c.args|..])
  {
    var split := Words(message);
    if split != [] && split[0] == c.name {
      var tokens := split[1..];
      if |split| > |c.args| && AllCoerce(svc, c.args, tokens) {
        CoerceAllAccepted(svc, c.args, tokens);
      }
      if CoerceAll(svc, c.args, tokens).Success? {
        assert forall i :: 0 <= i < |c.args| && i < |tokens| ==> tokens[i] == split[i + 1];
      }
    }
  }

  lemma {:induction false} CoerceAllFirstFailure(svc: Service, params: seq<Param>, tokens: seq<string>, i: nat)
    requires i < |params| && i < |tokens|
    requires Coerce(svc, params[i].coercer, tokens[i]).Failure?
    requires forall j :: 0 <= j < i ==> Coerce(svc, params[j].coercer, tokens[j]).Success?
    ensures CoerceAll(svc, params, tokens) == Failure(Coerce(svc, params[i].coercer, tokens[i]).error)
    decreases i
  {
    if i > 0 {
      assert Coerce(svc, params[0].coercer, tokens[0]).Success?;
      assert forall j :: 0 <= j < i - 1 ==> params[1..][j] == params[j + 1] && tokens[1..][j] == tokens[j + 1];
      CoerceAllFirstFailure(svc, params[1..], tokens[1..], i - 1);
    }
  }

  lemma {:induction false} CoerceAllAccepted(svc: Service, params: seq<Param>, tokens: seq<string>)
    requires forall j :: 0 <= j < Min(|params|, |tokens|) ==> Coerce(svc, params[j].coercer, tokens[j]).Success?
    ensures CoerceAll(svc, params, tokens).Success?
    decreases |params|
  {
    if params != [] && tokens != [] {
      assert Coerce(svc, params[0].coercer, tokens[0]).Success?;
      assert forall j :: 0 <= j < Min(|params| - 1, |tokens| - 1) ==> params[1..][j] == params[j + 1] && tokens[1..][j] == tokens[j + 1];
      CoerceAllAccepted(svc, params[1..], tokens[1..]);
    }
  }

  /** A coercer that fails on an earlier present token wins over the arity check. */
  lemma ParseFirstBadToken(svc: Service, c: Command, message: string, i: nat)
    requires Words(message) != [] && Words(message)[0] == c.name
    requires i < |c.args| && i + 1 < |Words(message)|
    requires Coerce(svc, c.args[i].coercer, Words(message)[i + 1]).Failure?
    requires forall j :: 0 <= j < i ==> Coerce(svc, c.args[j].coercer, Words(message)[j + 1]).Success?
    ensures ParseArgs(svc, c, message) == Failure(Coerce(svc, c.args[i].coercer, Words(message)[i + 1]).error)
  {
    var split := Words(message);
    assert forall j :: 0 <= j <= i ==> split[1..][j] == split[j + 1];
    CoerceAllFirstFailure(svc, c.args, split[1..], i);
  }

  /** Too few tokens, all of them accepted: the parse fails with "Not enough arguments". */
  lemma ParseNotEnough(svc: Service, c: Command, message: string)
    requires Words(message) != [] && Words(message)[0] == c.name
    requires |Words(message)| <= |c.args|
    requires forall j :: 0 <= j < |Words(message)| - 1 ==> Coerce(svc, c.args[j].coercer, Words(message)[j + 1]).Success?
    ensures ParseArgs(svc, c, message) == Failure(Error(ValueError, "Not enough arguments"))
  {
    var split := Words(message);
    assert forall j :: 0 <= j < |split| - 1 ==> split[1..][j] == split[j + 1];
    CoerceAllAccepted(svc, c.args, split[1..]);
  }

  /** `_mixed(f)`: an integer, a plain fraction, or a whole part and a proper fraction. */
  function Mixed(f: Fraction): string
  {
    var n, d := f.numerator, f.denominator;
    if n % d == 0 then IntStr(n / d)
    else if AsReal(f) <= 1.0 then IntStr(n) + "/" + IntStr(d)
    else IntStr(n / d) + " " + IntStr(n % d) + "/" + IntStr(d)
  }

  /**
   * What `_mixed` shows: the exact integer for an integral value; `n/d` for a
   * non-integral value at most 1 (negative values included); otherwise
   * `q r/d` with `q*d + r == n`, `q >= 1` and `0 < r < d`.
   */
  lemma MixedShows(f: Fraction)
    ensures f.numerator % f.denominator == 0 ==>
      exists q :: q * f.denominator == f.numerator && Mixed(f) == IntStr(q)
    ensures f.numerator % f.denominator != 0 && f.numerator <= f.denominator ==>
      Mixed(f) == IntStr(f.numerator) + "/" + IntStr(f.denominator)
    ensures f.numerator % f.denominator != 0 && f.numerator > f.denominator ==>
      exists q, r :: q * f.denominator + r == f.numerator && q >= 1 && 0 < r < f.denominator
        && Mixed(f) == IntStr(q) + " " + IntStr(r) + "/" + IntStr(f.denominator)
  {
    var n, d := f.numerator, f.denominator;
    var q, r := n / d, n % d;
    assert q * d + r == n;
    if r == 0 {
      assert Mixed(f) == IntStr(q);
    } else {
      if n <= d {
        RatioAtMostOne(n, d);
      } else {
        RatioAboveOne(n, d);
        assert q >= 1;
        assert Mixed(f) == IntStr(q) + " " + IntStr(r) + "/" + IntStr(d);
      }
    }
  }

  /** A quotient with a numerator at most its positive denominator is at most 1. */
  lemma RatioAtMostOne(n: int, d: int)
    requires 0 < d && n <= d
    ensures (n as real) / (d as real) <= 1.0
  {
    var q := (n as real) / (d as real);
    assert q * (d as real) == n as real;
  }

  /** A quotient with a numerator above its positive denominator is above 1. */
  lemma RatioAboveOne(n: int, d: int)
    requires 0 < d < n
    ensures (n as real) / (d as real) > 1.0
  {
    var q := (n as real) / (d as real);
    assert q * (d as real) == n as real;
  }

  /** Leader-board order: the larger balance comes first (`reverse=True` on the balance key). */
  predicate RicherFirst(a: PublicAccount, b: PublicAccount)
  {
    AsReal(a.balance) > AsReal(b.balance)
  }

  lemma RicherFirstIsStrictWeak()
    ensures Sorting.StrictWeakOrder(RicherFirst)
  {
  }

  /** The comprehension `[acc for i, acc in enumerate(accounts) if i < limit]`. */
  function IndexedBelow(accounts: seq<PublicAccount>, limit: int): seq<PublicAccount>
    decreases |accounts|
  {
    if accounts == [] then []
    else
      var last := |accounts| - 1;
      IndexedBelow(accounts[..last], limit) + (if last < limit then [accounts[last]] else [])
  }

  /** `sorted(accounts, key=balance, reverse=True)` filtered by `limit is None or i < limit`. */
  function LeaderBoardRows(accounts: seq<PublicAccount>, limit: Option<int>): seq<PublicAccount>
  {
    var ranked := Sorting.Sort(accounts, RicherFirst);
    if limit.None? then ranked else IndexedBelow(ranked, limit.value)
  }

  lemma {:induction false} IndexedBelowIsPrefix(accounts: seq<PublicAccount>, limit: int)
    ensures IndexedBelow(accounts, limit)
         == accounts[..if limit < 0 then 0 else Min(limit, |accounts|)]
    decreases |accounts|
  {
    if accounts != [] {
      var last := |accounts| - 1;
      IndexedBelowIsPrefix(accounts[..last], limit);
      assert accounts[..last][..if limit < 0 then 0 else Min(limit, last)]
          == accounts[..if limit < 0 then 0 else Min(limit, last)];
      if 0 <= last < limit {
        assert accounts[..last] + [accounts[last]] == accounts[..last + 1];
      }
    }
  }

  /**
   * The rows are the accounts in stable descending-balance order: with no
   * limit all of them, with a limit `L >= 0` exactly the first `min(L, count)`,
   * with a negative `L` none.
   */
  lemma LeaderBoardSelection(accounts: seq<PublicAccount>, limit: Option<int>)
    ensures var ranked := Sorting.Sort(accounts, RicherFirst);
      && |ranked| == |accounts|
      && multiset(ranked) == multiset(accounts)
      && (forall i, j :: 0 <= i < j < |ranked| ==> AsReal(ranked[i].balance) >= AsReal(ranked[j].balance))
      && (forall y :: Sorting.Ties(ranked, y, RicherFirst) == Sorting.Ties(accounts, y, RicherFirst))
      && (limit.None? ==> LeaderBoardRows(accounts, limit) == ranked)
      && (limit.Some? && limit.value >= 0 ==>
            LeaderBoardRows(accounts, limit) == ranked[..Min(limit.value, |accounts|)])
      && (limit.Some? && limit.value < 0 ==> LeaderBoardRows(accounts, limit) == [])
  {
    var ranked := Sorting.Sort(accounts, RicherFirst);
    Sorting.SortPermutation(accounts, RicherFirst);
    RicherFirstIsStrictWeak();
    Sorting.SortSorted(accounts, RicherFirst);
    forall y ensures Sorting.Ties(ranked, y, RicherFirst) == Sorting.Ties(accounts, y, RicherFirst) {
      Sorting.SortStable(accounts, y, RicherFirst);
    }
    assert |ranked| == |accounts| by {
      assert |multiset(ranked)| == |multiset(accounts)|;
    }
    if limit.Some? {
      IndexedBelowIsPrefix(ranked, limit.value);
    }
  }
}
