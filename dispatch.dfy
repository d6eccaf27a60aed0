/**
 * `run_command`, the single catch boundary, and the handlers whose logic is
 * part of the dispatch core: the proxy pair that re-enters `run_command`,
 * `_help`, the leader board, and one example each of a handler that turns a
 * domain exception into a friendly reply or returns a structured reply.
 */
module Dispatch {
  import opened Wrappers
  import opened Text
  import opened Domain
  import opened Commands
  import opened CommandTable

  function NoSuchCommand(name: string): string
  {
    "No such command: " + name
  }

  /** The exception kinds no `except` clause of `run_command` names. */
  predicate Uncaught(k: ErrorKind)
  {
    k == IndexError || k == TypeError || k == OtherError
  }

  /**
   * The `except` clauses of `run_command`: each caught kind becomes one fixed
   * reply shape (usage only under `ValueError` and `ValueCommandException`,
   * no detail under the unauthorized and process kinds); a reply the handler
   * returned, plain or structured, passes through unchanged; every other
   * exception propagates.
   */
  function Catch(c: Command, first: string, outcome: Result<Reply, Error>): (r: Result<Reply, Error>)
    ensures outcome.Success? ==> r == outcome
    ensures r.Failure? <==> outcome.Failure? && Uncaught(outcome.error.kind)
    ensures r.Failure? ==> r == outcome
  {
    match outcome
    case Success(reply) => Success(reply)
    case Failure(e) =>
      match e.kind
      case ValueError => Success(Message("Error: " + e.message + "\n" + Usage(c)))
      case ValueCommand => Success(Message("Invalid argument: " + e.message + "\n\n" + Usage(c)))
      case AccountCommand => Success(Message("Invalid account: " + e.message))
      case UnauthorizedCommand => Success(Message("Unauthorized command"))
      case ProcessCommand => Success(Message("Something went wrong. Please try again later"))
      case KeyError => Success(Message(NoSuchCommand(first)))
      case _ => Failure(e)
  }

  /** The line a proxy handler re-dispatches, `command + ' ' + rest`; unused when `command` is not a string. */
  function NestedLine(command: Value, rest: string): string
  {
    if command.Str? then command.s + " " + rest else ""
  }

  /**
   * `run_command(author, message, server)`. An empty line raises `IndexError`
   * from `split()[0]`, which nothing catches; an unregistered first token
   * replies "No such command" without usage; otherwise only the exception
   * kinds no clause catches can escape.
   */
  function RunCommand(t: OrderedTable, svc: Service, author: Value, message: string): (r: Result<Reply, Error>)
    ensures Words(message) == [] ==> r == Failure(Error(IndexError, "list index out of range"))
    ensures Words(message) != [] && Words(message)[0] !in t.entries ==>
      r == Success(Message(NoSuchCommand(Words(message)[0])))
    ensures r.Failure? ==> Uncaught(r.error.kind)
    decreases |Words(message)|, 2
  {
    var split := Words(message);
    if split == [] then Failure(Error(IndexError, "list index out of range"))
    else if split[0] !in t.entries then Success(Message(NoSuchCommand(split[0])))
    else
      var c := t.entries[split[0]];
      Catch(c, split[0], Invoke(t, svc, author, c, message))
  }

  /** The handler's positional arguments, named as the handler's own definition names them. */
  function Bindings(params: seq<string>, args: seq<Value>): (b: seq<Binding>)
    requires |params| == |args|
    ensures |b| == |args|
    ensures forall i :: 0 <= i < |b| ==> b[i] == Binding(params[i], args[i])
  {
    seq(|args|, i requires 0 <= i < |args| => Binding(params[i], args[i]))
  }

  /**
   * The body of the `try`: parse, then `command.func(author, *args, rest, server)`.
   * Values are passed by position, so a handler whose definition declares a
   * different number of parameters than the command declares arguments
   * raises `TypeError`.
   */
  function Invoke(t: OrderedTable, svc: Service, author: Value, c: Command, message: string): Result<Reply, Error>
    decreases |Words(message)|, 1
  {
    match ParseArgs(svc, c, message)
    case Failure(e) => Failure(e)
    case Success(parsed) =>
      if |parsed.args| != |Params(c.handler)| then
        Failure(Error(TypeError, "wrong number of positional arguments"))
      else Handle(t, svc, author, c, message, parsed)
  }

  /** `command.func(author, *args, rest, server)` once the values fit the handler's parameters. */
  function Handle(t: OrderedTable, svc: Service, author: Value, c: Command, message: string, parsed: Parsed)
    : Result<Reply, Error>
    requires ParseArgs(svc, c, message) == Success(parsed)
    requires |parsed.args| == |Params(c.handler)|
    decreases |Words(message)|, 0
  {
    var args, rest := parsed.args, parsed.rest;
    match c.handler
    case Glue(routine, params) => svc.call(routine, author, Bindings(params, args), rest)
    case OpenAccount => OpenAccountReply(svc, author)
    case LeaderBoard => LeaderBoardReply(svc, author, args[0])
    case PrintMoney => PrintMoneyReply(svc, author, args[0], args[1])
    case Shoot => ShootReply(svc, author, args[0])
    case Proxy =>
      assert |c.args| == 2;
      LastArgument(svc, c, message, parsed);
      NestedLineShrinks(svc, c, message, parsed);
      Delegate(t, svc, author, args[0], Nothing, args[1], rest)
    case ProxyDsa =>
      assert |c.args| == 3;
      LastArgument(svc, c, message, parsed);
      NestedLineShrinks(svc, c, message, parsed);
      Delegate(t, svc, author, args[0], args[1], args[2], rest)
    case Help => Success(Message(HelpText(t, rest)))
  }

  /**
   * `_proxy` (with `signature` None) and `_proxy_dsa`: ask the service
   * whether `author` may act as `account`; if so re-enter `run_command` as
   * `account` with the nested line, else reply "Unauthorized proxy".
   */
  function Delegate(t: OrderedTable, svc: Service, author: Value, account: Value, signature: Value,
                    command: Value, rest: string): Result<Reply, Error>
    decreases |Words(NestedLine(command, rest))| + 1, 3
  {
    if !command.Str? then Failure(Error(TypeError, "unsupported operand type(s) for +"))
    else
      var line := NestedLine(command, rest);
      match svc.verifyProxy(author, account, signature, line)
      case Failure(e) => Failure(e)
      case Success(allowed) =>
        if allowed then RunCommand(t, svc, account, line) else Success(Message("Unauthorized proxy"))
  }

  /**
   * The nested line has one token for the command and then exactly the
   * surplus tokens of the outer line, so it is shorter by the proxy command's
   * name and all its other declared arguments.
   */
  lemma NestedLineShrinks(svc: Service, c: Command, message: string, parsed: Parsed)
    requires LastParsed(c, Words(message), parsed)
    ensures var split, n := Words(message), |c.args|;
      parsed.args[n - 1].Str? ==>
        && c.args[n - 1].coercer == AsText
        && Words(NestedLine(parsed.args[n - 1], parsed.rest)) == split[n..]
    ensures |Words(NestedLine(parsed.args[|c.args| - 1], parsed.rest))| <= |Words(message)| - |c.args|
  {
    NestedTokens(Words(message), |c.args|, parsed.args[|c.args| - 1], parsed.rest);
  }

  /** What the proxy handlers need of a parse: its arity, its re-joined surplus, and where a text value came from. */
  predicate LastParsed(c: Command, split: seq<string>, parsed: Parsed)
  {
    var n := |c.args|;
    && 1 <= n == |parsed.args| && n < |split|
    && parsed.rest == Join(" ", split[n + 1..])
    && (parsed.args[n - 1].Str? ==> c.args[n - 1].coercer == AsText && parsed.args[n - 1].s == split[n])
    && (c.args[n - 1].coercer == AsText ==> parsed.args[n - 1] == Str(split[n]))
  }

  /** A parse's last value is text exactly when its coercer is `str`, and then it is the token it came from. */
  lemma LastArgument(svc: Service, c: Command, message: string, parsed: Parsed)
    requires ParseArgs(svc, c, message) == Success(parsed)
    requires |c.args| >= 1
    ensures LastParsed(c, Words(message), parsed)
  {
    var split, n := Words(message), |c.args|;
    assert && n == |parsed.args| && n < |split|
      && parsed.rest == Join(" ", split[n + 1..])
      && Coerce(svc, c.args[n - 1].coercer, split[n]) == Success(parsed.args[n - 1]) by {
      ParseArgsSpec(svc, c, message);
    }
    LastCoerced(svc, c, split, parsed);
  }

  /** The last value a parse produced, from the facts about its last position alone. */
  lemma LastCoerced(svc: Service, c: Command, split: seq<string>, parsed: Parsed)
    requires var n := |c.args|;
      && 1 <= n == |parsed.args| && n < |split|
      && parsed.rest == Join(" ", split[n + 1..])
      && Coerce(svc, c.args[n - 1].coercer, split[n]) == Success(parsed.args[n - 1])
    ensures LastParsed(c, split, parsed)
  {
    var n := |c.args|;
    CoerceText(svc, c.args[n - 1].coercer, split[n]);
  }

  lemma NestedTokens(split: seq<string>, n: nat, v: Value, rest: string)
    requires forall i :: 0 <= i < |split| ==> IsToken(split[i])
    requires 1 <= n < |split| && rest == Join(" ", split[n + 1..])
    requires v.Str? ==> v.s == split[n]
    ensures v.Str? ==> Words(NestedLine(v, rest)) == split[n..]
    ensures |Words(NestedLine(v, rest))| <= |split| - n
  {
    if v.Str? {
      var tail := split[n + 1..];
      assert forall i :: 0 <= i < |tail| ==> IsToken(tail[i]);
      WordsOfPrefixedJoin(split[n], tail);
      assert [split[n]] + tail == split[n..];
    } else {
      assert NestedLine(v, rest) == "";
    }
  }

  /** `_help`: one command's usage, or the whole listing in dictionary order. */
  function HelpText(t: OrderedTable, rest: string): string
  {
    var restSplit := Words(rest);
    if restSplit != [] then
      if restSplit[0] in t.entries then Usage(t.entries[restSplit[0]]) else NoSuchCommand(restSplit[0])
    else
      Join("\n", ["List of commands:", Join("\n", HelpLines(t))])
  }

  function HelpLine(c: Command): string
  {
    "    " + c.name + " -- " + c.description
  }

  /** One listing line per dictionary entry, in iteration order. */
  function HelpLines(t: OrderedTable): (lines: seq<string>)
    ensures |lines| == |t.order|
    ensures forall i :: 0 <= i < |t.order| ==> lines[i] == HelpLine(t.entries[t.order[i]])
  {
    seq(|t.order|, i requires 0 <= i < |t.order| => HelpLine(t.entries[t.order[i]]))
  }

  /** `_open_account`: the "already have an account" value error becomes a friendly reply. */
  function OpenAccountReply(svc: Service, author: Value): Result<Reply, Error>
  {
    match svc.openAccount(author, author)
    case Success(_) => Success(Message("Account opened succesfully"))
    case Failure(e) =>
      if e.kind == ValueCommand then
        Success(Message("Looks like you already have an account. No need to open another one"))
      else Failure(e)
  }

  /** `_print_money`: a value error becomes a friendly reply; success shows the amount with `_mixed`. */
  function PrintMoneyReply(svc: Service, author: Value, amount: Value, account: Value): Result<Reply, Error>
  {
    match svc.printMoney(author, account, amount)
    case Failure(e) =>
      if e.kind == ValueCommand then Success(Message("Invalid arguement: Cannot print negative amounts"))
      else Failure(e)
    case Success(_) =>
      if amount.Frac? then Success(Message("Printed " + Mixed(amount.f) + " to " + svc.show(account)))
      else if amount.Int? then Success(Message("Printed " + Mixed(Rational(amount.i, 1)) + " to " + svc.show(account)))
      else Failure(Error(OtherError, "object has no attribute 'numerator'"))
  }

  /** `_shoot_account`: a successful shot returns the structured reply naming whom to mute. */
  function ShootReply(svc: Service, author: Value, victim: Value): Result<Reply, Error>
  {
    match svc.shootAccount(author, author, victim)
    case Failure(e) =>
      if e.message == "Victim cannot be shot" then
        Success(Message("You tried to shoot " + svc.show(victim) + " but they dodged"))
      else Failure(e)
    case Success(wasShot) =>
      if wasShot then Success(Structured("Successfully shot " + svc.show(victim), victim))
      else Success(Message("You tried to shoot " + svc.show(victim)
        + " but they had a bullet-proof vest that protected them.\n"
        + "Because of your shot, their vest has been damaged and they are now vulnerable."))
  }

  /** The rendered leader-board rows, numbered from 1. */
  function NumberedRows(svc: Service, rows: seq<PublicAccount>): (lines: seq<string>)
    ensures |lines| == |rows|
    ensures forall i :: 0 <= i < |rows| ==> lines[i] == svc.renderRow(i + 1, rows[i])
  {
    seq(|rows|, i requires 0 <= i < |rows| => svc.renderRow(i + 1, rows[i]))
  }

  /**
   * `_leader_board`: the selected rows joined by line breaks. `i < limit`
   * raises `TypeError` for a limit that is neither `None` nor a number; a
   * `Fraction` limit is treated the same way here, although Python would
   * compare it, because the only coercer registered for this handler
   * (line 228) yields `None` or an `int`.
   */
  function LeaderBoardReply(svc: Service, author: Value, limit: Value): Result<Reply, Error>
  {
    match svc.publicAccounts(author)
    case Failure(e) => Failure(e)
    case Success(accounts) =>
      if !limit.Nothing? && !limit.Int? && accounts != [] then
        Failure(Error(TypeError, "'<' not supported"))
      else
        var bound := if limit.Int? then Some(limit.i) else None;
        Success(Message(Join("\n", NumberedRows(svc, LeaderBoardRows(accounts, bound)))))
  }

  // ---------------------------------------------------------------------
  // The catch boundary

  /**
   * The reply each caught kind produces. Usage follows the message only for
   * `ValueError` (on the next line) and `ValueCommandException` (after an
   * empty line); the account kind shows the message alone; the unauthorized
   * and process kinds show a fixed text whatever the exception says.
   */
  lemma CaughtReplies(c: Command, first: string, e: Error)
    ensures var r := Catch(c, first, Failure(e));
      && (e.kind == ValueError ==>
            r == Success(Message("Error: " + e.message + "\n" + Usage(c)))
            && ('\n' !in e.message ==>
                  SplitOn('\n', r.value.text) == ["Error: " + e.message] + SplitOn('\n', Usage(c))))
      && (e.kind == ValueCommand ==>
            r == Success(Message("Invalid argument: " + e.message + "\n\n" + Usage(c)))
            && ('\n' !in e.message ==>
                  SplitOn('\n', r.value.text) == ["Invalid argument: " + e.message, ""] + SplitOn('\n', Usage(c))))
      && (e.kind == AccountCommand ==>
            r == Success(Message("Invalid account: " + e.message))
            && ('\n' !in e.message ==> SplitOn('\n', r.value.text) == [r.value.text]))
      && (e.kind == UnauthorizedCommand ==>
            forall e': Error :: e'.kind == e.kind ==> r == Catch(c, first, Failure(e')) == Success(Message("Unauthorized command")))
      && (e.kind == ProcessCommand ==>
            forall e': Error :: e'.kind == e.kind ==>
              r == Catch(c, first, Failure(e')) == Success(Message("Something went wrong. Please try again later")))
      && (e.kind == KeyError ==> r == Success(Message(NoSuchCommand(first))))
  {
    if '\n' !in e.message {
      match e.kind {
        case ValueError => ValueErrorLines(Usage(c), e.message);
        case ValueCommand => ValueCommandLines(Usage(c), e.message);
        case AccountCommand => AccountLine(e.message);
        case _ =>
      }
    }
  }

  lemma ValueErrorLines(usage: string, message: string)
    requires '\n' !in message
    ensures SplitOn('\n', "Error: " + message + "\n" + usage) == ["Error: " + message] + SplitOn('\n', usage)
  {
    assert "Error: " + message + "\n" + usage == ("Error: " + message) + ['\n'] + usage;
    SplitOnLine('\n', "Error: " + message, usage);
  }

  lemma ValueCommandLines(usage: string, message: string)
    requires '\n' !in message
    ensures SplitOn('\n', "Invalid argument: " + message + "\n\n" + usage)
         == ["Invalid argument: " + message, ""] + SplitOn('\n', usage)
  {
    var line := "Invalid argument: " + message;
    assert line + "\n\n" + usage == line + ['\n'] + ("" + ['\n'] + usage);
    SplitOnLine('\n', line, "" + ['\n'] + usage);
    SplitOnLine('\n', "", usage);
  }

  lemma AccountLine(message: string)
    requires '\n' !in message
    ensures SplitOn('\n', "Invalid account: " + message) == ["Invalid account: " + message]
  {
    var text := "Invalid account: " + message;
    SplitOnFree('\n', text, "");
    assert text + "" == text;
  }

  // ---------------------------------------------------------------------
  // Parsing seen through run_command

  /** Too few tokens, all accepted: the usage error, and no handler runs. */
  lemma ShortLineReply(t: OrderedTable, svc: Service, author: Value, message: string)
    requires t.Keyed()
    requires Words(message) != [] && Words(message)[0] in t.entries
    requires var c := t.entries[Words(message)[0]];
      && |Words(message)| <= |c.args|
      && forall j :: 0 <= j < |Words(message)| - 1 ==> Coerce(svc, c.args[j].coercer, Words(message)[j + 1]).Success?
    ensures RunCommand(t, svc, author, message)
         == Success(Message("Error: Not enough arguments\n" + Usage(t.entries[Words(message)[0]])))
  {
    var split := Words(message);
    var c := t.entries[split[0]];
    var e := Error(ValueError, "Not enough arguments");
    assert ParseArgs(svc, c, message) == Failure(e) by {
      assert c.name == split[0];
      ParseNotEnough(svc, c, message);
    }
    InvokeFails(t, svc, author, c, message);
    RunsInvoke(t, svc, author, message);
    NotEnoughLine(Usage(c));
  }

  /** Re-associates the string literals of the short-line reply; it models nothing of its own. */
  lemma NotEnoughLine(usage: string)
    ensures "Error: " + "Not enough arguments" + "\n" + usage == "Error: Not enough arguments\n" + usage
  {
  }

  /** A line whose first token is a key runs that entry's command inside the `try`. */
  lemma RunsInvoke(t: OrderedTable, svc: Service, author: Value, message: string)
    requires Words(message) != [] && Words(message)[0] in t.entries
    ensures var split := Words(message);
      RunCommand(t, svc, author, message)
        == Catch(t.entries[split[0]], split[0], Invoke(t, svc, author, t.entries[split[0]], message))
  {
  }

  /** A failed parse is the exception the body of the `try` raises. */
  lemma InvokeFails(t: OrderedTable, svc: Service, author: Value, c: Command, message: string)
    requires ParseArgs(svc, c, message).Failure?
    ensures Invoke(t, svc, author, c, message) == Failure(ParseArgs(svc, c, message).error)
  {
  }

  /**
   * The first rejected token decides the reply, before the arity check: a
   * `ValueError` shows usage, and a `KeyError` (the authorization-level
   * lookup) is reported as an unknown command.
   */
  lemma BadTokenReply(t: OrderedTable, svc: Service, author: Value, message: string, i: nat)
    requires t.Keyed()
    requires Words(message) != [] && Words(message)[0] in t.entries
    requires var split, c := Words(message), t.entries[Words(message)[0]];
      && i < |c.args| && i + 1 < |split|
      && Coerce(svc, c.args[i].coercer, split[i + 1]).Failure?
      && forall j :: 0 <= j < i ==> Coerce(svc, c.args[j].coercer, split[j + 1]).Success?
    ensures var split, c := Words(message), t.entries[Words(message)[0]];
      var e := Coerce(svc, c.args[i].coercer, split[i + 1]).error;
      && RunCommand(t, svc, author, message) == Catch(c, split[0], Failure(e))
      && (e.kind == ValueError ==>
            RunCommand(t, svc, author, message) == Success(Message("Error: " + e.message + "\n" + Usage(c))))
      && (e.kind == KeyError ==> RunCommand(t, svc, author, message) == Success(Message(NoSuchCommand(split[0]))))
  {
    ParseFirstBadToken(svc, t.entries[Words(message)[0]], message, i);
  }

  /**
   * `authorize` (or its alias) with a level no authorization is named: the
   * level lookup's `KeyError` makes the reply claim the command is unknown.
   */
  lemma UnknownLevelReply(t: OrderedTable, svc: Service, author: Value, message: string,
                          name: string, account: string, level: string, more: seq<string>)
    requires t.Keyed()
    requires Words(message) == [name, account, level] + more
    requires name in t.entries && t.entries[name].args == AuthorizeCommand.args
    requires svc.parseAccountId(account).Success?
    requires Lower(level) !in LevelTable(svc.authorizationNames)
    ensures RunCommand(t, svc, author, message) == Success(Message(NoSuchCommand(name)))
  {
    var c := t.entries[name];
    assert Coerce(svc, c.args[0].coercer, account).Success?;
    assert Coerce(svc, c.args[1].coercer, level).error.kind == KeyError;
    BadTokenReply(t, svc, author, message, 1);
  }

  /** A line made of the name, one accepted token per argument and surplus tokens parses to those values and the re-joined surplus. */
  lemma ParsedAs(svc: Service, c: Command, message: string, tokens: seq<string>, values: seq<Value>, more: seq<string>)
    requires Words(message) == [c.name] + tokens + more
    requires |tokens| == |values| == |c.args|
    requires forall i :: 0 <= i < |c.args| ==> Coerce(svc, c.args[i].coercer, tokens[i]) == Success(values[i])
    ensures ParseArgs(svc, c, message) == Success(Parsed(values, Join(" ", more)))
  {
    ParseArgsSpec(svc, c, message);
    var split := Words(message);
    assert forall i :: 0 <= i < |c.args| ==> split[1..][i] == tokens[i];
    assert split[1 + |c.args|..] == more;
    var p := ParseArgs(svc, c, message).value;
    assert forall i :: 0 <= i < |c.args| ==> split[i + 1] == tokens[i];
    assert p.args == values;
  }

  /** Such a line, for a command whose handler takes one value per argument, runs the handler on them. */
  lemma RunsHandler(t: OrderedTable, svc: Service, author: Value, c: Command, message: string,
                    tokens: seq<string>, values: seq<Value>, more: seq<string>)
    requires c.name in t.entries && t.entries[c.name] == c
    requires Words(message) == [c.name] + tokens + more
    requires |tokens| == |values| == |c.args| == |Params(c.handler)|
    requires forall i :: 0 <= i < |c.args| ==> Coerce(svc, c.args[i].coercer, tokens[i]) == Success(values[i])
    ensures ParseArgs(svc, c, message) == Success(Parsed(values, Join(" ", more)))
    ensures RunCommand(t, svc, author, message)
         == Catch(c, c.name, Handle(t, svc, author, c, message, Parsed(values, Join(" ", more))))
  {
    ParsedAs(svc, c, message, tokens, values, more);
  }

  /** For a glue handler that is one service call, with the values bound to its parameters by position. */
  lemma RunsGlue(t: OrderedTable, svc: Service, author: Value, c: Command, message: string,
                 tokens: seq<string>, values: seq<Value>, more: seq<string>)
    requires c.name in t.entries && t.entries[c.name] == c && c.handler.Glue?
    requires Words(message) == [c.name] + tokens + more
    requires |tokens| == |values| == |c.args| == |c.handler.params|
    requires forall i :: 0 <= i < |c.args| ==> Coerce(svc, c.args[i].coercer, tokens[i]) == Success(values[i])
    ensures RunCommand(t, svc, author, message)
         == Catch(c, c.name, svc.call(c.handler.routine, author, Bindings(c.handler.params, values), Join(" ", more)))
  {
    RunsHandler(t, svc, author, c, message, tokens, values, more);
  }

  // ---------------------------------------------------------------------
  // Proxy re-entry

  /**
   * `proxy <account> <command> <rest...>`: the nested line is the command
   * and the surplus tokens, two tokens shorter; a refusal is the fixed
   * reply, and permission makes the reply exactly `run_command` of the
   * nested line on behalf of `account`.
   */
  lemma ProxyReplies(t: OrderedTable, svc: Service, author: Value, message: string,
                     account: string, command: string, more: seq<string>, id: AccountId)
    requires "proxy" in t.entries && t.entries["proxy"] == ProxyCommand
    requires Words(message) == ["proxy", account, command] + more
    requires svc.parseAccountId(account) == Success(id)
    ensures var nested := command + " " + Join(" ", more);
      var verdict := svc.verifyProxy(author, Account(id), Nothing, nested);
      && Words(nested) == [command] + more
      && |Words(nested)| == |Words(message)| - 2
      && (verdict == Success(false) ==> RunCommand(t, svc, author, message) == Success(Message("Unauthorized proxy")))
      && (verdict == Success(true) ==> RunCommand(t, svc, author, message) == RunCommand(t, svc, Account(id), nested))
      && (verdict.Failure? ==> RunCommand(t, svc, author, message) == Catch(ProxyCommand, "proxy", Failure(verdict.error)))
  {
    var split := Words(message);
    assert split == ["proxy"] + [account, command] + more;
    assert split[2] == command && split[3..] == more;
    NestedTokens(split, 2, Str(command), Join(" ", more));
    ProxyRuns(t, svc, author, message, account, command, more, id);
    DelegateReplies(t, svc, author, Account(id), Nothing, command, Join(" ", more));
  }

  /** `proxy-dsa <account> <signature> <command> <rest...>`: the same, with the signature passed on and three tokens fewer. */
  lemma ProxyDsaReplies(t: OrderedTable, svc: Service, author: Value, message: string,
                        account: string, signature: string, command: string, more: seq<string>, id: AccountId)
    requires "proxy-dsa" in t.entries && t.entries["proxy-dsa"] == ProxyDsaCommand
    requires Words(message) == ["proxy-dsa", account, signature, command] + more
    requires svc.parseAccountId(account) == Success(id)
    ensures var nested := command + " " + Join(" ", more);
      var verdict := svc.verifyProxy(author, Account(id), Str(signature), nested);
      && Words(nested) == [command] + more
      && |Words(nested)| == |Words(message)| - 3
      && (verdict == Success(false) ==> RunCommand(t, svc, author, message) == Success(Message("Unauthorized proxy")))
      && (verdict == Success(true) ==> RunCommand(t, svc, author, message) == RunCommand(t, svc, Account(id), nested))
      && (verdict.Failure? ==> RunCommand(t, svc, author, message) == Catch(ProxyDsaCommand, "proxy-dsa", Failure(verdict.error)))
  {
    var split := Words(message);
    assert split == ["proxy-dsa"] + [account, signature, command] + more;
    assert split[3] == command && split[4..] == more;
    NestedTokens(split, 3, Str(command), Join(" ", more));
    ProxyDsaRuns(t, svc, author, message, account, signature, command, more, id);
    DelegateReplies(t, svc, author, Account(id), Str(signature), command, Join(" ", more));
  }

  /** A `proxy` line runs the re-entry with the parsed account, no signature and the command token. */
  lemma ProxyRuns(t: OrderedTable, svc: Service, author: Value, message: string,
                  account: string, command: string, more: seq<string>, id: AccountId)
    requires "proxy" in t.entries && t.entries["proxy"] == ProxyCommand
    requires Words(message) == ["proxy", account, command] + more
    requires svc.parseAccountId(account) == Success(id)
    ensures RunCommand(t, svc, author, message)
         == Catch(ProxyCommand, "proxy", Delegate(t, svc, author, Account(id), Nothing, Str(command), Join(" ", more)))
  {
    var c, tokens, values := ProxyCommand, [account, command], [Account(id), Str(command)];
    assert c.name == "proxy" && |c.args| == 2 && Params(c.handler) == ["account", "command"];
    assert c.args[0].coercer == AsAccountId && c.args[1].coercer == AsText;
    assert Words(message) == [c.name] + tokens + more;
    RunsHandler(t, svc, author, c, message, tokens, values, more);
  }

  /** A `proxy-dsa` line runs the re-entry with the parsed account, the signature token and the command token. */
  lemma ProxyDsaRuns(t: OrderedTable, svc: Service, author: Value, message: string,
                     account: string, signature: string, command: string, more: seq<string>, id: AccountId)
    requires "proxy-dsa" in t.entries && t.entries["proxy-dsa"] == ProxyDsaCommand
    requires Words(message) == ["proxy-dsa", account, signature, command] + more
    requires svc.parseAccountId(account) == Success(id)
    ensures RunCommand(t, svc, author, message)
         == Catch(ProxyDsaCommand, "proxy-dsa",
                  Delegate(t, svc, author, Account(id), Str(signature), Str(command), Join(" ", more)))
  {
    var c, tokens, values := ProxyDsaCommand, [account, signature, command], [Account(id), Str(signature), Str(command)];
    assert c.name == "proxy-dsa" && |c.args| == 3 && Params(c.handler) == ["account", "signature", "command"];
    assert c.args[0].coercer == AsAccountId && c.args[1].coercer == AsText && c.args[2].coercer == AsText;
    assert Words(message) == [c.name] + tokens + more;
    RunsHandler(t, svc, author, c, message, tokens, values, more);
  }

  /**
   * What a proxy handler's re-entry amounts to at the catch boundary: a
   * refusal is the fixed reply, permission is exactly `run_command` on the
   * nested line (whose own escaping exceptions pass through), and an
   * exception from the check is caught like any other.
   */
  lemma DelegateReplies(t: OrderedTable, svc: Service, author: Value, account: Value, signature: Value,
                        command: string, rest: string)
    ensures var nested := command + " " + rest;
      var verdict := svc.verifyProxy(author, account, signature, nested);
      var r := Delegate(t, svc, author, account, signature, Str(command), rest);
      forall c: Command, first: string ::
        && (verdict == Success(false) ==> Catch(c, first, r) == Success(Message("Unauthorized proxy")))
        && (verdict == Success(true) ==> Catch(c, first, r) == RunCommand(t, svc, account, nested))
        && (verdict.Failure? ==> Catch(c, first, r) == Catch(c, first, Failure(verdict.error)))
  {
  }

  // ---------------------------------------------------------------------
  // Positional passing

  /**
   * Values reach a handler by position only: a command whose handler takes
   * a different number of values than the command declares fails with the
   * uncaught `TypeError` on every line that parses.
   */
  lemma ArityMismatchEscapes(t: OrderedTable, svc: Service, author: Value, message: string)
    requires t.Keyed()
    requires Words(message) != [] && Words(message)[0] in t.entries
    requires var c := t.entries[Words(message)[0]];
      |c.args| != |Params(c.handler)| && ParseArgs(svc, c, message).Success?
    ensures RunCommand(t, svc, author, message).Failure?
    ensures RunCommand(t, svc, author, message).error.kind == TypeError
  {
  }

  /** `admin-create-recurring-transfer` declares four arguments for a three-value handler. */
  lemma AdminRecurringTransferEscapes(t: OrderedTable, svc: Service, author: Value, message: string,
                                      amount: string, source: string, destination: string, ticks: string,
                                      more: seq<string>)
    requires t.Keyed()
    requires "admin-create-recurring-transfer" in t.entries
    requires t.entries["admin-create-recurring-transfer"] == AdminCreateRecurringTransferCommand
    requires Words(message) == ["admin-create-recurring-transfer", amount, source, destination, ticks] + more
    requires svc.parseFraction(amount).Success? && svc.parseFraction(source).Success?
    requires svc.parseAccountId(destination).Success? && svc.parseInt(ticks).Success?
    ensures RunCommand(t, svc, author, message).Failure?
    ensures RunCommand(t, svc, author, message).error.kind == TypeError
  {
    var c := AdminCreateRecurringTransferCommand;
    var tokens := [amount, source, destination, ticks];
    var values := [Frac(svc.parseFraction(amount).value), Frac(svc.parseFraction(source).value),
                   Account(svc.parseAccountId(destination).value), Int(svc.parseInt(ticks).value)];
    assert Words(message) == [c.name] + tokens + more;
    ParsedAs(svc, c, message, tokens, values, more);
    ArityMismatchEscapes(t, svc, author, message);
  }

  /**
   * `add-tax-bracket start end rate name`: the handler's second parameter is
   * `rate` and its third `end`, so the upper-bound token arrives as the rate
   * and the rate token as the upper bound.
   */
  lemma TaxBracketPositional(t: OrderedTable, svc: Service, author: Value, message: string,
                             start: string, end: string, rate: string, name: string, more: seq<string>,
                             fs: Fraction, fe: Fraction, fr: Fraction)
    requires "add-tax-bracket" in t.entries && t.entries["add-tax-bracket"] == AddTaxBracketCommand
    requires Words(message) == ["add-tax-bracket", start, end, rate, name] + more
    requires svc.parseFraction(start) == Success(fs)
    requires svc.parseFraction(end) == Success(fe)
    requires svc.parseFraction(rate) == Success(fr)
    ensures RunCommand(t, svc, author, message)
         == Catch(AddTaxBracketCommand, "add-tax-bracket",
                  svc.call("_add_tax_bracket", author,
                           [Binding("start", Frac(fs)), Binding("rate", Frac(fe)),
                            Binding("end", Frac(fr)), Binding("name", Str(name))],
                           Join(" ", more)))
  {
    var c := AddTaxBracketCommand;
    var tokens := [start, end, rate, name];
    var values := [Frac(fs), Frac(fe), Frac(fr), Str(name)];
    TaxBracketCoerces(svc, tokens, values, fs, fe, fr);
    assert Words(message) == [c.name] + tokens + more;
    RunsGlue(t, svc, author, c, message, tokens, values, more);
    TaxBracketBindings(values, fs, fe, fr, name);
  }

  /** The four declared coercers of `add-tax-bracket` accept its four tokens. */
  lemma TaxBracketCoerces(svc: Service, tokens: seq<string>, values: seq<Value>, fs: Fraction, fe: Fraction, fr: Fraction)
    requires |tokens| == 4 && values == [Frac(fs), Frac(fe), Frac(fr), Str(tokens[3])]
    requires svc.parseFraction(tokens[0]) == Success(fs)
    requires svc.parseFraction(tokens[1]) == Success(fe)
    requires svc.parseFraction(tokens[2]) == Success(fr)
    ensures var c := AddTaxBracketCommand;
      && c.handler.Glue? && c.name == "add-tax-bracket"
      && |c.args| == |c.handler.params| == 4
      && forall i :: 0 <= i < |c.args| ==> Coerce(svc, c.args[i].coercer, tokens[i]) == Success(values[i])
  {
    var c := AddTaxBracketCommand;
    assert c.args[0].coercer == AsFraction && c.args[1].coercer == AsFraction;
    assert c.args[2].coercer == AsFraction && c.args[3].coercer == AsText;
  }

  /** Bound by the handler's positional order: the second value lands on `rate`, the third on `end`. */
  lemma TaxBracketBindings(values: seq<Value>, fs: Fraction, fe: Fraction, fr: Fraction, name: string)
    requires values == [Frac(fs), Frac(fe), Frac(fr), Str(name)]
    ensures Bindings(AddTaxBracketCommand.handler.params, values)
         == [Binding("start", Frac(fs)), Binding("rate", Frac(fe)), Binding("end", Frac(fr)), Binding("name", Str(name))]
  {
    var b := Bindings(["start", "rate", "end", "name"], values);
    assert b[0] == Binding("start", Frac(fs)) && b[1] == Binding("rate", Frac(fe));
    assert b[2] == Binding("end", Frac(fr)) && b[3] == Binding("name", Str(name));
  }

  // ---------------------------------------------------------------------
  // Handlers with their own replies

  /** `shoot`: a hit is the structured reply, passed through untouched; a dodge is caught by the handler itself. */
  lemma ShootReplies(t: OrderedTable, svc: Service, author: Value, message: string,
                     victim: string, more: seq<string>, id: AccountId)
    requires "shoot" in t.entries && t.entries["shoot"] == ShootCommand
    requires Words(message) == ["shoot", victim] + more
    requires svc.parseAccountId(victim) == Success(id)
    ensures var shot := svc.shootAccount(author, author, Account(id));
      && (shot == Success(true) ==>
            RunCommand(t, svc, author, message)
              == Success(Structured("Successfully shot " + svc.show(Account(id)), Account(id))))
      && (shot.Failure? && shot.error.message == "Victim cannot be shot" ==>
            RunCommand(t, svc, author, message)
              == Success(Message("You tried to shoot " + svc.show(Account(id)) + " but they dodged")))
  {
    RunsHandler(t, svc, author, ShootCommand, message, [victim], [Account(id)], more);
  }

  /** `open`: the "already exists" value error becomes a friendly reply instead of the usage reply. */
  lemma OpenReplies(t: OrderedTable, svc: Service, author: Value, message: string, more: seq<string>)
    requires "open" in t.entries && t.entries["open"] == OpenCommand
    requires Words(message) == ["open"] + more
    ensures var result := svc.openAccount(author, author);
      && (result.Success? ==> RunCommand(t, svc, author, message) == Success(Message("Account opened succesfully")))
      && (result.Failure? && result.error.kind == ValueCommand ==>
            RunCommand(t, svc, author, message)
              == Success(Message("Looks like you already have an account. No need to open another one")))
  {
    assert Words(message) == [OpenCommand.name] + [] + more;
    RunsHandler(t, svc, author, OpenCommand, message, [], [], more);
  }

  /** `print-money`: success shows the amount with `_mixed`; a negative amount gets the handler's own reply. */
  lemma PrintMoneyReplies(t: OrderedTable, svc: Service, author: Value, message: string,
                          amount: string, account: string, more: seq<string>, f: Fraction, id: AccountId)
    requires "print-money" in t.entries && t.entries["print-money"] == PrintMoneyCommand
    requires Words(message) == ["print-money", amount, account] + more
    requires svc.parseFraction(amount) == Success(f) && svc.parseAccountId(account) == Success(id)
    ensures var printed := svc.printMoney(author, Account(id), Frac(f));
      && (printed.Success? ==>
            RunCommand(t, svc, author, message)
              == Success(Message("Printed " + Mixed(f) + " to " + svc.show(Account(id)))))
      && (printed.Failure? && printed.error.kind == ValueCommand ==>
            RunCommand(t, svc, author, message)
              == Success(Message("Invalid arguement: Cannot print negative amounts")))
  {
    assert Words(message) == [PrintMoneyCommand.name] + [amount, account] + more;
    RunsHandler(t, svc, author, PrintMoneyCommand, message, [amount, account], [Frac(f), Account(id)], more);
  }

  /**
   * `leader-board <limit>` (or its alias): a negative limit means no limit,
   * any other is passed on; the rows `LeaderBoardSelection` describes are
   * rendered one per line, numbered from 1.
   */
  lemma LeaderBoardReplies(t: OrderedTable, svc: Service, author: Value, message: string,
                           name: string, limit: string, more: seq<string>, n: int, accounts: seq<PublicAccount>)
    requires t.Keyed()
    requires name in t.entries
    requires t.entries[name].args == LeaderBoardCommand.args && t.entries[name].handler == LeaderBoard
    requires Words(message) == [name, limit] + more
    requires svc.parseInt(limit) == Success(n) && svc.publicAccounts(author) == Success(accounts)
    ensures RunCommand(t, svc, author, message)
         == Success(Message(Join("\n", NumberedRows(svc, LeaderBoardRows(accounts, if n < 0 then None else Some(n))))))
  {
    var c := t.entries[name];
    assert Words(message) == [c.name] + [limit] + more;
    RunsHandler(t, svc, author, c, message, [limit], [LimitValue(n)], more);
    var outcome := LeaderBoardReply(svc, author, LimitValue(n));
    assert Handle(t, svc, author, c, message, Parsed([LimitValue(n)], Join(" ", more))) == outcome;
    assert outcome.Success?;
  }

  // ---------------------------------------------------------------------
  // Help

  /** `help <name> ...`: that command's usage, or the unknown-command reply without usage. */
  lemma HelpNamed(t: OrderedTable, svc: Service, author: Value, message: string, name: string, more: seq<string>)
    requires "help" in t.entries && t.entries["help"] == HelpCommand
    requires Words(message) == ["help", name] + more
    ensures RunCommand(t, svc, author, message)
         == Success(Message(if name in t.entries then Usage(t.entries[name]) else NoSuchCommand(name)))
  {
    var split := Words(message);
    assert split == [HelpCommand.name] + [] + ([name] + more);
    RunsHandler(t, svc, author, HelpCommand, message, [], [], [name] + more);
    assert forall i :: 0 <= i < |[name] + more| ==> ([name] + more)[i] == split[i + 1];
    WordsOfJoin([name] + more);
  }

  /**
   * `help` alone: a heading line and then one line per dictionary entry,
   * aliases included, in the dictionary's order, each naming its key.
   */
  lemma HelpListing(t: OrderedTable, svc: Service, author: Value, message: string)
    requires t.Keyed()
    requires "help" in t.entries && t.entries["help"] == HelpCommand
    requires forall k :: k in t.entries ==> '\n' !in k && '\n' !in t.entries[k].description
    requires Words(message) == ["help"]
    ensures var r := RunCommand(t, svc, author, message);
      && r.Success? && r.value.Message?
      && SplitOn('\n', r.value.text) == ["List of commands:"] + HelpLines(t)
      && forall i :: 0 <= i < |t.order| ==>
           SplitOn('\n', r.value.text)[i + 1] == "    " + t.order[i] + " -- " + t.entries[t.order[i]].description
  {
    assert "help" in t.order;
    HelpRuns(t, svc, author, message);
    HelpTextLines(t);
  }

  /**
   * `help` alone once the module has loaded: the dictionary has been rebound
   * to its key-sorted copy (line 951), so the listing names every registered
   * key once, aliases included, in strictly ascending key order.
   */
  lemma HelpListingSorted(t0: Table, t: OrderedTable, svc: Service, author: Value, message: string)
    requires t0.WellFormed() && t0.Keyed() && t == SortedByKey(t0)
    requires "help" in t0.entries && t0.entries["help"] == HelpCommand
    requires forall k :: k in t0.entries ==> '\n' !in k && '\n' !in t0.entries[k].description
    requires Words(message) == ["help"]
    ensures var r := RunCommand(t, svc, author, message);
      && r.Success? && r.value.Message?
      && |SplitOn('\n', r.value.text)| == |t.order| + 1
      && (forall i :: 0 <= i < |t.order| ==>
            SplitOn('\n', r.value.text)[i + 1] == "    " + t.order[i] + " -- " + t0.entries[t.order[i]].description)
      && (forall i, j :: 0 <= i < j < |t.order| ==> StrLess(t.order[i], t.order[j]))
      && (forall k :: k in t0.entries <==> k in t.order)
  {
    SortedByKeyAscending(t0);
    HelpListing(t, svc, author, message);
  }

  lemma HelpRuns(t: OrderedTable, svc: Service, author: Value, message: string)
    requires "help" in t.entries && t.entries["help"] == HelpCommand
    requires Words(message) == ["help"]
    ensures RunCommand(t, svc, author, message) == Success(Message(HelpText(t, "")))
  {
    assert Words(message) == [HelpCommand.name] + [] + [];
    RunsHandler(t, svc, author, HelpCommand, message, [], [], []);
    assert Handle(t, svc, author, HelpCommand, message, Parsed([], Join(" ", []))) == Success(Message(HelpText(t, "")));
  }

  /** The listing's lines: the heading, then one line per key in order (the table is not empty). */
  lemma HelpTextLines(t: OrderedTable)
    requires t.Keyed() && t.order != []
    requires forall k :: k in t.entries ==> '\n' !in k && '\n' !in t.entries[k].description
    ensures SplitOn('\n', HelpText(t, "")) == ["List of commands:"] + HelpLines(t)
    ensures forall i :: 0 <= i < |t.order| ==>
      SplitOn('\n', HelpText(t, ""))[i + 1] == "    " + t.order[i] + " -- " + t.entries[t.order[i]].description
  {
    var lines := HelpLines(t);
    forall i | 0 <= i < |lines| ensures '\n' !in lines[i] {
      var k := t.order[i];
      assert lines[i] == "    " + k + " -- " + t.entries[k].description;
    }
    assert HelpText(t, "") == Join("\n", ["List of commands:", Join("\n", lines)]) by {
      assert Words("") == [];
    }
    ListingLines(lines);
  }

  lemma ListingLines(lines: seq<string>)
    requires |lines| >= 1 && forall i :: 0 <= i < |lines| ==> '\n' !in lines[i]
    ensures SplitOn('\n', Join("\n", ["List of commands:", Join("\n", lines)])) == ["List of commands:"] + lines
  {
    var head := "List of commands:";
    assert '\n' !in head;
    HeadedLines(head, lines);
  }

  lemma HeadedLines(head: string, lines: seq<string>)
    requires '\n' !in head
    requires |lines| >= 1 && forall i :: 0 <= i < |lines| ==> '\n' !in lines[i]
    ensures SplitOn('\n', Join("\n", [head, Join("\n", lines)])) == [head] + lines
  {
    var body := Join("\n", lines);
    assert [head, body][1..] == [body];
    assert Join("\n", [head, body]) == head + ['\n'] + body;
    SplitOnJoin('\n', lines);
    SplitOnLine('\n', head, body);
  }
}
