# Command dispatch of the economy bot

This project models how the bot's command module (`src/bot_commands.py`) turns
one line of chat text into a reply. The model has five parts.

- **The registry.** `_commands` is an insertion-ordered dictionary from command
  name to `_Command`, filled by `_add_command` and `_alias` while the module
  loads and then rebound to a key-sorted copy. It is modelled as the class
  `CommandTable.Registry`, whose methods update its `order` and `entries`
  fields in place. Its contracts are stated against the pure tables `Added`,
  `Aliased`, `SortedByKey` and `Replay`.
- **The argument parser.** `_parse_command_args` splits on whitespace. It
  applies each declared coercer, in declaration order, to the tokens that are
  present. Only then does it check that there were enough tokens, and it
  re-joins the surplus with single spaces (`Commands.ParseArgs`).
- **The catch boundary.** `run_command` maps every exception kind it names to
  one fixed reply shape, and lets the others escape (`Dispatch.Catch`,
  `Dispatch.RunCommand`).
- **The handlers with logic of their own.**
  - The proxy pair re-enters `run_command` under another identity. Termination
    is proved by the nested line's token count, with no depth bound.
  - `_help` replies with either one command's usage or the whole listing.
  - The leader board selects accounts.
  - `_open_account`, `_print_money` and `_shoot_account` each turn a domain
    exception into a friendly reply or return a structured record.
- **Text helpers.** These cover `_Command.usage`, `_mixed`, Python's
  `str.split()` and `' '.join`, and string ordering.

The domain layer (`commands`, `accounting`) is the record `Domain.Service` of
total functions. Each returns a value or the exception it would raise. An
exception is `Error(kind, message)`, where `message` is what `str(e)` gives.
Handlers that make one service call and echo a fixed string are
`Handler.Glue(name, params)`. They are dispatched to `Service.call` with their
arguments bound by position to the parameter names of the handler's own
definition.

Files:

| file | contents |
|---|---|
| `wrappers.dfy` | `Option`, `Result` |
| `text.dfy` | `Words` (`str.split()`), `Join`, `SplitOn` (`str.split('\n')`), `IntStr`, ASCII `Lower`, `StrLess` |
| `sorting.dfy` | Python's stable `sorted` as an insertion sort, with permutation, order and stability proved |
| `domain.dfy` | values, exception kinds, replies, the service |
| `commands.dfy` | `_Command`, usage, coercers, the parser, `_mixed`, the leader-board selection |
| `registry.dfy` | the dictionary, the `Registry` class, loading, the module's registrations |
| `loading.dfy` | what a sequence of registrations leaves in the dictionary |
| `dispatch.dfy` | `run_command`, the handlers above, and lemmas about the replies |

## Model

| member | source | states |
|---|---|---|
| Commands.Usage | src/bot_commands.py:33-40 | `_Command.usage()`; its line structure is specified by `Commands.UsageLines` |
| Commands.UsageLines | src/bot_commands.py:33-40 | the usage text's lines are, in order: "Usage: name" and the argument names joined by spaces; the description; "Options: "; then one "    arg -- help" line per argument in declaration order, so as many option lines as arguments (a single empty line when there are none) |
| Commands.LevelTableLookup | src/bot_commands.py:911 | the authorization-level table holds every member's lower-cased name, and each key maps to the last member with that lower-cased name |
| Commands.Coerce | src/bot_commands.py:91 | one declared coercer applied to one token: `str`, `int`, `Fraction`, `parse_account_id`, the level lookup of line 911 and the limit coercer of line 228; specified by `Commands.CoerceText`, `Commands.LevelTableLookup` and `Dispatch.LeaderBoardReplies` |
| Commands.CoerceText | src/bot_commands.py:91 | only the `str` coercer yields text, and it yields exactly its token |
| Commands.CoerceAll | src/bot_commands.py:90-95 | on success, one value per pair of parameter and present token, each value being that parameter's coercion of that token |
| Commands.CoerceAllFirstFailure | src/bot_commands.py:90-95 | coercion stops at the first token its coercer rejects, and raises that coercer's exception |
| Commands.CoerceAllAccepted | src/bot_commands.py:90-95 | when every coercer accepts its present token, coercion succeeds |
| Commands.ParseArgs | src/bot_commands.py:84-99 | `_parse_command_args`; specified by `Commands.ParseArgsSpec`, `Commands.ParseFirstBadToken` and `Commands.ParseNotEnough` |
| Commands.ParseArgsSpec | src/bot_commands.py:84-99 | the parse succeeds iff the first token is the command's name, at least one token per declared argument follows, and every declared coercer accepts its token. The values are then the coercions in declaration order, and `rest` is the surplus tokens joined by single spaces |
| Commands.ParseFirstBadToken | src/bot_commands.py:90-97 | a rejected early token fails the parse with its coercer's exception, even when the line is too short |
| Commands.ParseNotEnough | src/bot_commands.py:96-97 | a short line whose present tokens all coerce fails with ValueError "Not enough arguments" |
| Commands.Mixed | src/bot_commands.py:49-58 | `_mixed`; specified by `Commands.MixedShows` |
| Commands.MixedShows | src/bot_commands.py:49-58 | an integral fraction shows its exact quotient; a non-integer at most 1 shows "n/d"; a non-integer above 1 shows "q r/d" with q*d + r == n, q >= 1 and 0 < r < d |
| Commands.RicherFirstIsStrictWeak | src/bot_commands.py:217 | descending balance is a strict weak order, so the sort's results below apply |
| Commands.IndexedBelowIsPrefix | src/bot_commands.py:222 | the filter `i < limit` over `enumerate` keeps exactly the first min(limit, count) rows, and none for a negative limit |
| Commands.LeaderBoardSelection | src/bot_commands.py:217-222 | the rows are a permutation of the accounts in non-increasing balance order, with ties in their original order; None shows all of them, L >= 0 exactly the first min(L, count) |
| Sorting.Sort | src/bot_commands.py:217 | Python's stable `sorted`; specified by `Sorting.SortPermutation`, `Sorting.SortSorted` and `Sorting.SortStable` |
| Sorting.SortPermutation | src/bot_commands.py:217 | `sorted` returns a permutation of its input |
| Sorting.SortSorted | src/bot_commands.py:217 | `sorted` returns its input in order under any strict weak order |
| Sorting.SortStable | src/bot_commands.py:217 | `sorted` is stable: elements with equal keys keep their relative order |
| CommandTable.StrLessIsStrictWeak | src/bot_commands.py:951 | comparing `str` keys is a strict weak order |
| CommandTable.Added | src/bot_commands.py:66-72 | `_add_command` stores the new command under its name, leaves every other entry as it was, keeps an existing key's position, and appends a new key |
| CommandTable.AddedKeepsShape | src/bot_commands.py:72 | adding keeps keys unique in the iteration order, and every entry stored under its own name |
| CommandTable.Aliased | src/bot_commands.py:75-81 | `_alias` raises KeyError if and only if `name` is unregistered. Otherwise the alias holds a copy with the alias as its name and the original's arguments, function and description, and every other entry, the original included, is unchanged |
| CommandTable.AliasedKeepsShape | src/bot_commands.py:75-81 | aliasing keeps keys unique in the iteration order, and every entry stored under its own name |
| CommandTable.SortedByKey | src/bot_commands.py:951 | the dictionary rebound in key order; specified by `CommandTable.SortedByKeyAscending` |
| CommandTable.SortedByKeyAscending | src/bot_commands.py:951 | the re-sorted dictionary has the same entries, iterated in strictly ascending key order |
| CommandTable.Replay | src/bot_commands.py:66-81 | the dictionary after a sequence of `_add_command` and `_alias` calls, or the KeyError that stops loading; specified by `CommandTable.ReplayShape`, `CommandTable.ReplayFailureSticks` and the `Loading` lemmas |
| CommandTable.ReplayShape | src/bot_commands.py:66-81 | any sequence of registrations that loads leaves a well-formed dictionary keyed by name |
| CommandTable.ReplayFailureSticks | src/bot_commands.py:77 | once an alias raises, the rest of the module does not run, and that exception is the outcome |
| CommandTable.Registry.constructor | src/bot_commands.py:8 | the dictionary starts empty |
| CommandTable.Registry.Add | src/bot_commands.py:66-72 | updates the dictionary in place to exactly `Added` of its old state |
| CommandTable.Registry.Alias | src/bot_commands.py:75-81 | updates the dictionary in place to `Aliased` of its old state; on KeyError it reports the exception and changes nothing |
| CommandTable.Registry.SortByKey | src/bot_commands.py:951 | rebinds the dictionary to its key-sorted copy |
| CommandTable.Load | src/bot_commands.py:66-81 | running registrations then the re-sort succeeds iff replaying them does; it yields the sorted replay, or else the exception raised |
| CommandTable.Startup | src/bot_commands.py:136-951 | loading the module is `Load` of the module's registrations, in source order |
| Loading.ReplayKeys | src/bot_commands.py:66-81 | the keys after loading are exactly the names registered or aliased so far |
| Loading.LoadSucceedsIff | src/bot_commands.py:75-81 | registrations load iff every alias names a command registered earlier |
| Loading.ResolvedPrefix | src/bot_commands.py:75-81 | when every alias resolves, every prefix of the registrations loads |
| Loading.StepResolves | src/bot_commands.py:75-81 | one more registration loads when it adds a command, or aliases an already written name |
| Loading.UntouchedKeeps | src/bot_commands.py:72-81 | an entry that no later registration writes survives to the end unchanged |
| Loading.StepKeeps | src/bot_commands.py:72-81 | a registration leaves every key but its own target unchanged |
| Loading.LastAdded | src/bot_commands.py:66-72 | the last registration of a name determines that name's final entry |
| Loading.SuccessfulPrefix | src/bot_commands.py:66-81 | if the registrations load, so does every prefix |
| Dispatch.Catch | src/bot_commands.py:106-125 | a returned reply, plain or structured, passes through unchanged; an exception escapes iff no `except` clause names its kind |
| Dispatch.Invoke | src/bot_commands.py:108-110 | the `try` body: parse, then call the handler, with TypeError on an arity mismatch; specified by `Dispatch.RunsHandler` and `Dispatch.ArityMismatchEscapes` |
| Dispatch.Handle | src/bot_commands.py:110 | `command.func(author, *args, rest, server)` for each kind of handler; specified by `Dispatch.RunsGlue` and the reply lemmas below |
| Dispatch.RunCommand | src/bot_commands.py:102-125 | an empty or all-whitespace line raises IndexError, which escapes; an unregistered first token replies exactly "No such command: <token>" with no usage; otherwise only exception kinds that no clause catches can escape |
| Dispatch.CaughtReplies | src/bot_commands.py:111-125 | ValueError gives "Error: msg", a line break, then the usage; ValueCommandException gives "Invalid argument: msg", an empty line, then the usage; AccountCommandException gives "Invalid account: msg" with no usage; Unauthorized and Process give their fixed texts whatever the message; KeyError gives "No such command: first token". For a single-line message, the first two split into the error line(s) followed by the usage lines, and the third is one line |
| Dispatch.ValueErrorLines | src/bot_commands.py:111-113 | the ValueError reply is one error line followed by the usage lines |
| Dispatch.ValueCommandLines | src/bot_commands.py:114-117 | the ValueCommandException reply is one error line, then an empty line, then the usage lines |
| Dispatch.AccountLine | src/bot_commands.py:118-119 | the AccountCommandException reply is a single line |
| Dispatch.ShortLineReply | src/bot_commands.py:96-113 | a known command with too few tokens, all of which coerce, replies "Error: Not enough arguments" followed by its usage |
| Dispatch.BadTokenReply | src/bot_commands.py:90-125 | the first rejected token decides the reply: a ValueError gives the error line and usage; a KeyError gives "No such command: first token" |
| Dispatch.UnknownLevelReply | src/bot_commands.py:911 | an unknown authorization level raises KeyError inside the parse, and the reply is "No such command: <command token>", not a level error |
| Dispatch.ParsedAs | src/bot_commands.py:84-99 | a line of name, one accepted token per argument, and surplus parses to exactly those values and the surplus joined by single spaces |
| Dispatch.RunsHandler | src/bot_commands.py:107-110 | a well-formed line whose values fit the handler runs that handler's body with those values and `rest` |
| Dispatch.RunsGlue | src/bot_commands.py:110 | a glue handler receives its values bound by position to its own parameter names |
| Dispatch.ArityMismatchEscapes | src/bot_commands.py:110 | a command that declares a different number of arguments than its handler takes raises TypeError, which escapes `run_command` |
| Dispatch.AdminRecurringTransferEscapes | src/bot_commands.py:465-475 | `admin-create-recurring-transfer` with four well-formed tokens always escapes with TypeError |
| Dispatch.TaxBracketPositional | src/bot_commands.py:611-636 | `add-tax-bracket start end rate name` hands the declared `end` to the handler's `rate` and the declared `rate` to its `end` |
| Dispatch.TaxBracketCoerces | src/bot_commands.py:631-634 | the four declared coercers of `add-tax-bracket` are three `Fraction`s and a `str` |
| Dispatch.TaxBracketBindings | src/bot_commands.py:613 | the handler's parameter order is start, rate, end, name |
| Dispatch.NestedTokens | src/bot_commands.py:483 | `command + ' ' + rest` splits into the command token followed by exactly the outer line's surplus tokens |
| Dispatch.LastArgument | src/bot_commands.py:84-99 | the last parsed value of a command with arguments is text exactly when its coercer is `str`, and then it is the token in its position; `rest` joins the tokens after it |
| Dispatch.NestedLineShrinks | src/bot_commands.py:482-494 | the nested line has at most as many tokens as the outer line minus the declared arguments, so the re-entry terminates |
| Dispatch.Delegate | src/bot_commands.py:478-495 | the shared body of `_proxy` and `_proxy_dsa`; specified by `Dispatch.DelegateReplies`, its termination by `Dispatch.NestedLineShrinks` |
| Dispatch.DelegateReplies | src/bot_commands.py:482-484 | verify_proxy false gives exactly "Unauthorized proxy"; true gives exactly `run_command(account, command + ' ' + rest)`; a verify_proxy exception goes to the outer catch boundary |
| Dispatch.ProxyRuns | src/bot_commands.py:478-484 | a `proxy account command ...` line runs `_proxy` with the parsed account, the command token and the surplus |
| Dispatch.ProxyDsaRuns | src/bot_commands.py:487-495 | a `proxy-dsa account signature command ...` line runs `_proxy_dsa` with the parsed account, the signature, the command token and the surplus |
| Dispatch.ProxyReplies | src/bot_commands.py:478-484 | `proxy`: the nested line has 2 fewer tokens; on refusal the reply is exactly "Unauthorized proxy"; on approval it is run_command of the nested line as the target account |
| Dispatch.ProxyDsaReplies | src/bot_commands.py:487-495 | `proxy-dsa`: the nested line has 3 fewer tokens; the signature goes to verify_proxy; refusal and approval as for `proxy` |
| Dispatch.ShootReply | src/bot_commands.py:697-711 | `_shoot_account`; specified by `Dispatch.ShootReplies` |
| Dispatch.ShootReplies | src/bot_commands.py:697-711 | a hit returns the structured record unchanged, naming the victim to mute; the "Victim cannot be shot" exception becomes the dodge message |
| Dispatch.OpenAccountReply | src/bot_commands.py:183-192 | `_open_account`; specified by `Dispatch.OpenReplies` |
| Dispatch.OpenReplies | src/bot_commands.py:183-192 | opening replies "Account opened succesfully"; an existing account (ValueCommandException) gives the friendly message |
| Dispatch.PrintMoneyReply | src/bot_commands.py:381-389 | `_print_money`; specified by `Dispatch.PrintMoneyReplies` |
| Dispatch.PrintMoneyReplies | src/bot_commands.py:381-389 | success replies "Printed <_mixed amount> to <account>"; a ValueCommandException gives the negative-amount message |
| Dispatch.LeaderBoardReply | src/bot_commands.py:216-222 | `_leader_board`; specified by `Dispatch.LeaderBoardReplies` and `Commands.LeaderBoardSelection` |
| Dispatch.LeaderBoardReplies | src/bot_commands.py:216-228 | `leader-board L` sends a negative L to "no limit" and replies with the numbered rows of the leader-board selection, joined by line breaks |
| Dispatch.HelpText | src/bot_commands.py:921-941 | `_help`; specified by `Dispatch.HelpNamed`, `Dispatch.HelpTextLines`, `Dispatch.HelpListing` and `Dispatch.HelpListingSorted` |
| Dispatch.HelpNamed | src/bot_commands.py:925-934 | `help name` gives that command's usage when it is registered, and "No such command: name" without usage otherwise |
| Dispatch.HelpRuns | src/bot_commands.py:944-949 | a bare `help` runs `_help` with an empty `rest` |
| Dispatch.HelpTextLines | src/bot_commands.py:935-941 | the listing is "List of commands:" followed by one line per entry, in iteration order |
| Dispatch.HelpListing | src/bot_commands.py:921-941 | a bare `help` replies "List of commands:" followed by one "    key -- description" line per entry, aliases included, in the dictionary's iteration order |
| Dispatch.HelpListingSorted | src/bot_commands.py:935-951 | once the dictionary has been rebound to its key-sorted copy, a bare `help` lists every registered key exactly once, aliases included, in strictly ascending key order |

## Left out

- The `commands` and `accounting` modules are abstract: `Domain.Service` has one total function per operation the dispatch core calls. Ledger semantics are not modelled.
- `Fraction(token)`, `int(token)` and `parse_account_id(token)` are the service's parsers. Python's literal syntax is not modelled.
- Python's `str.lower()` is modelled for ASCII letters only.
- `_rounded` and the fixed-width column formatting of the leader-board rows are not modelled, because they depend on float rounding and format specifications. Each row comes from the service's `renderRow`. The selection and order of the rows are modelled exactly.
- Commands.Mixed, Commands.MixedShows: both float divisions of `_mixed` are exact in the model. The whole part `int(n / d)` at line 51 becomes integer division, and the branch test `n / d <= 1` at line 52 is decided on the exact rational. With large terms the results can differ. For example, near 1 the model shows "q r/d" where the source's rounded quotient equals 1.0 and it prints "n/d" (`Fraction(10**17 + 1, 10**17)`).
- When `int` cannot parse the leader-board limit, the outcome is whatever exception the service's `parseInt` returns.
- `print(1)` in `_shoot_account` is debugging output and is not modelled.
- The one-line glue handlers are `Service.call` on the handler's name and positional bindings. Their fixed reply strings are the service's business.
- The model does not evaluate the module's own registrations. The lemmas about individual commands take the entry as a hypothesis (`t.entries["proxy"] == ProxyCommand`). `Loading.LoadSucceedsIff` and `Loading.LastAdded` characterise what loading leaves.
- Loading: for an alias, the final entry is given by `CommandTable.Aliased` step by step. There is no whole-sequence lemma for the last alias written.
- Commands.CoerceAll: its own contract covers success only. The failure side is `Commands.CoerceAllFirstFailure`, and `Commands.CoerceAllAccepted` gives the converse.
- Dispatch.LeaderBoardReply: a `Fraction` limit raises TypeError here, although Python's `i < limit` would compare it. The only coercer registered for the leader board yields `None` or an `int`, so no line can produce such a limit.
- Commands.UsageLines: requires `SingleLineTexts` (name, description and help texts without line breaks), because a line break inside one of them would split it over several lines of the usage text.
- Dispatch.CaughtReplies: states the line split of the ValueError, ValueCommandException and AccountCommandException replies only for a message without line breaks; the reply texts themselves are stated for every message.
- Dispatch.HelpTextLines: requires a non-empty dictionary. The empty listing cannot arise, because `help` itself is registered.
- Dispatch.HelpListing: requires names and descriptions without line breaks, because a line break would split one listing line into two.
- Handlers not named above are not modelled individually. Examples are `_transfer`, `_balance`, the farm and tax handlers, and the admin handlers. Their signatures enter the model only through their parameter names in `Registrations`.
- The `server` argument passed through every call is not modelled, because the service is already fixed.
