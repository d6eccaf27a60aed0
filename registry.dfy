/**
 * The module-level `_commands` dictionary: how `_add_command` and `_alias`
 * fill it while the module loads, the re-sort by key that ends the module,
 * and the list of registrations the module performs.
 */
module CommandTable {
  import opened Wrappers
  import opened Text
  import opened Domain
  import opened Commands
  import Sorting

  /** An insertion-ordered dictionary from command name to command. */
  datatype Table = Table(order: seq<string>, entries: map<string, Command>)
  {
    /** Every key appears exactly once in the iteration order. */
    predicate WellFormed()
    {
      && (forall i, j :: 0 <= i < j < |order| ==> order[i] != order[j])
      && (forall i :: 0 <= i < |order| ==> order[i] in entries)
      && (forall k :: k in entries ==> k in order)
    }

    /** Every entry is stored under its own name. */
    predicate Keyed()
    {
      forall k :: k in entries ==> entries[k].name == k
    }
  }

  /** A dictionary as Python keeps one: keys unique, order covering exactly the keys. */
  type OrderedTable = t: Table | t.WellFormed() witness Table([], map[])

  /** `_add_command(name, args, func, description)`: insert or overwrite, keeping an old key's position. */
  function Added(t: Table, name: string, args: seq<Param>, handler: Handler, description: string): (r: Table)
    ensures r.entries.Keys == t.entries.Keys + {name}
    ensures r.entries[name] == Command(name, args, handler, description)
    ensures forall k :: k in t.entries && k != name ==> r.entries[k] == t.entries[k]
    ensures name in t.entries ==> r.order == t.order
    ensures name !in t.entries ==> r.order == t.order + [name]
  {
    Table(if name in t.entries then t.order else t.order + [name],
          t.entries[name := Command(name, args, handler, description)])
  }

  /** Adding keeps the keys unique in the order and every entry under its own name. */
  lemma AddedKeepsShape(t: Table, name: string, args: seq<Param>, handler: Handler, description: string)
    ensures t.WellFormed() ==> Added(t, name, args, handler, description).WellFormed()
    ensures t.Keyed() ==> Added(t, name, args, handler, description).Keyed()
  {
  }

  /**
   * `_alias(name, alias)`: a `KeyError` when `name` is not registered;
   * otherwise a copy of its command, renamed, is stored under `alias` and
   * every other entry, the original included, is left as it was.
   */
  function Aliased(t: Table, name: string, alias: string): (r: Result<Table, Error>)
    ensures r.Failure? <==> name !in t.entries
    ensures r.Failure? ==> r.error == Error(KeyError, "'" + name + "'")
    ensures r.Success? ==>
      && r.value.entries.Keys == t.entries.Keys + {alias}
      && r.value.entries[alias].name == alias
      && r.value.entries[alias].args == t.entries[name].args
      && r.value.entries[alias].handler == t.entries[name].handler
      && r.value.entries[alias].description == t.entries[name].description
      && (forall k :: k in t.entries && k != alias ==> r.value.entries[k] == t.entries[k])
      && r.value.order == (if alias in t.entries then t.order else t.order + [alias])
  {
    if name !in t.entries then Failure(Error(KeyError, "'" + name + "'"))
    else
      var copy := Renamed(t.entries[name], alias);
      Success(Table(if alias in t.entries then t.order else t.order + [alias], t.entries[alias := copy]))
  }

  /** Aliasing keeps the keys unique in the order and every entry under its own name. */
  lemma AliasedKeepsShape(t: Table, name: string, alias: string)
    requires Aliased(t, name, alias).Success?
    ensures t.WellFormed() ==> Aliased(t, name, alias).value.WellFormed()
    ensures t.Keyed() ==> Aliased(t, name, alias).value.Keyed()
  {
  }

  /** Line 951: the same entries, iterated in ascending key order. */
  function SortedByKey(t: Table): Table
  {
    Table(Sorting.Sort(t.order, StrLess), t.entries)
  }

  lemma StrLessIsStrictWeak()
    ensures Sorting.StrictWeakOrder(StrLess)
  {
    forall a, b | StrLess(a, b) ensures !StrLess(b, a) {
      if StrLess(b, a) {
        StrLessTransitive(a, b, a);
        StrLessIrreflexive(a);
      }
    }
    forall a, b, c | StrLess(a, c) ensures StrLess(a, b) || StrLess(b, c) {
      if a != b && b != c && !StrLess(a, b) {
        StrLessTotal(a, b);
        StrLessTransitive(b, a, c);
      }
    }
  }

  predicate Distinct(s: seq<string>)
  {
    forall i, j :: 0 <= i < j < |s| ==> s[i] != s[j]
  }

  lemma {:induction false} DistinctCounts(s: seq<string>, x: string)
    requires Distinct(s)
    ensures multiset(s)[x] <= 1
    decreases |s|
  {
    if s != [] {
      assert s == [s[0]] + s[1..];
      DistinctCounts(s[1..], x);
      if x == s[0] {
        assert x !in s[1..];
      }
    }
  }

  lemma RepeatCounts(s: seq<string>, i: nat, j: nat)
    requires i < j < |s| && s[i] == s[j]
    ensures multiset(s)[s[i]] >= 2
  {
    assert s == s[..j] + [s[j]] + s[j + 1..];
    assert s[i] in s[..j];
  }

  lemma PermutationDistinct(s: seq<string>, r: seq<string>)
    requires Distinct(s) && multiset(r) == multiset(s)
    ensures Distinct(r)
  {
    forall i, j | 0 <= i < j < |r| ensures r[i] != r[j] {
      if r[i] == r[j] {
        RepeatCounts(r, i, j);
        DistinctCounts(s, r[i]);
      }
    }
  }

  /** Re-sorting keeps the dictionary a dictionary and orders its keys strictly ascending. */
  lemma SortedByKeyAscending(t: Table)
    requires t.WellFormed()
    ensures SortedByKey(t).WellFormed()
    ensures SortedByKey(t).entries == t.entries
    ensures forall i, j :: 0 <= i < j < |SortedByKey(t).order| ==> StrLess(SortedByKey(t).order[i], SortedByKey(t).order[j])
  {
    var r := Sorting.Sort(t.order, StrLess);
    assert SortedByKey(t) == Table(r, t.entries);
    Sorting.SortPermutation(t.order, StrLess);
    StrLessIsStrictWeak();
    Sorting.SortSorted(t.order, StrLess);
    assert Distinct(t.order);
    PermutationDistinct(t.order, r);
    forall k | k in t.entries ensures k in r {
      assert k in multiset(t.order);
    }
    forall i | 0 <= i < |r| ensures r[i] in t.entries {
      assert r[i] in multiset(t.order);
    }
    forall i, j | 0 <= i < j < |r| ensures StrLess(r[i], r[j]) {
      assert !StrLess(r[j], r[i]);
      StrLessTotal(r[i], r[j]);
    }
  }

  /** One registration call made while the module loads. */
  datatype Registration = AddCommand(command: Command) | AddAlias(name: string, alias: string)

  function Apply(t: Table, step: Registration): Result<Table, Error>
  {
    match step
    case AddCommand(c) => Success(Added(t, c.name, c.args, c.handler, c.description))
    case AddAlias(name, alias) => Aliased(t, name, alias)
  }

  /** The dictionary after the given registrations, or the `KeyError` a bad alias raises. */
  function Replay(steps: seq<Registration>): Result<Table, Error>
    decreases |steps|
  {
    if steps == [] then Success(Table([], map[]))
    else
      match Replay(steps[..|steps| - 1])
      case Failure(e) => Failure(e)
      case Success(t) => Apply(t, steps[|steps| - 1])
  }

  /** Whatever the registrations, a dictionary that loads is well formed and keyed by name. */
  lemma {:induction false} ReplayShape(steps: seq<Registration>)
    requires Replay(steps).Success?
    ensures Replay(steps).value.WellFormed() && Replay(steps).value.Keyed()
    decreases |steps|
  {
    if steps != [] {
      var init := steps[..|steps| - 1];
      var last := steps[|steps| - 1];
      ReplayShape(init);
      var t := Replay(init).value;
      match last {
        case AddCommand(c) => AddedKeepsShape(t, c.name, c.args, c.handler, c.description);
        case AddAlias(name, alias) => AliasedKeepsShape(t, name, alias);
      }
    }
  }

  lemma {:induction false} ReplayFailureSticks(steps: seq<Registration>, i: nat)
    requires i <= |steps|
    requires Replay(steps[..i]).Failure?
    ensures Replay(steps) == Replay(steps[..i])
    decreases |steps| - i
  {
    if i < |steps| {
      assert steps[..i + 1][..i] == steps[..i];
      ReplayFailureSticks(steps, i + 1);
    } else {
      assert steps[..i] == steps;
    }
  }

  /** The `_commands` dictionary, built in place. */
  class Registry {
    var order: seq<string>
    var entries: map<string, Command>

    function Snapshot(): Table
      reads this
    {
      Table(order, entries)
    }

    ghost predicate Valid()
      reads this
    {
      Snapshot().WellFormed() && Snapshot().Keyed()
    }

    /** `_commands = {}`. */
    constructor ()
      ensures Valid() && Snapshot() == Table([], map[])
    {
      order, entries := [], map[];
    }

    /** `_add_command`. */
    method Add(name: string, args: seq<Param>, handler: Handler, description: string)
      requires Valid()
      modifies this
      ensures Valid()
      ensures Snapshot() == Added(old(Snapshot()), name, args, handler, description)
    {
      AddedKeepsShape(Snapshot(), name, args, handler, description);
      if name !in entries {
        order := order + [name];
      }
      entries := entries[name := Command(name, args, handler, description)];
    }

    /** `_alias`: on a missing `name` it raises `KeyError` and changes nothing. */
    method Alias(name: string, alias: string) returns (outcome: Result<(), Error>)
      requires Valid()
      modifies this
      ensures Valid()
      ensures match Aliased(old(Snapshot()), name, alias)
        case Success(t) => outcome == Success(()) && Snapshot() == t
        case Failure(e) => outcome == Failure(e) && Snapshot() == old(Snapshot())
    {
      if name !in entries {
        outcome := Failure(Error(KeyError, "'" + name + "'"));
        return;
      }
      AliasedKeepsShape(Snapshot(), name, alias);
      var copy := Renamed(entries[name], alias);
      if alias !in entries {
        order := order + [alias];
      }
      entries := entries[alias := copy];
      outcome := Success(());
    }

    /** Line 951: `_commands` rebound to a copy ordered by key. */
    method SortByKey()
      requires Valid()
      modifies this
      ensures Valid()
      ensures Snapshot() == SortedByKey(old(Snapshot()))
    {
      SortedByKeyAscending(Snapshot());
      order := Sorting.Sort(order, StrLess);
    }
  }

  /** Runs the given registrations in order, then re-sorts by key. */
  method Load(steps: seq<Registration>) returns (reg: Registry, outcome: Result<(), Error>)
    ensures fresh(reg) && reg.Valid()
    ensures outcome.Success? <==> Replay(steps).Success?
    ensures outcome.Success? ==> reg.Snapshot() == SortedByKey(Replay(steps).value)
    ensures outcome.Failure? ==> Replay(steps) == Failure(outcome.error)
  {
    reg := new Registry();
    var i := 0;
    while i < |steps|
      invariant 0 <= i <= |steps|
      invariant fresh(reg) && reg.Valid()
      invariant Replay(steps[..i]) == Success(reg.Snapshot())
    {
      assert steps[..i + 1][..i] == steps[..i];
      match steps[i] {
        case AddCommand(c) =>
          reg.Add(c.name, c.args, c.handler, c.description);
        case AddAlias(name, alias) =>
          var r := reg.Alias(name, alias);
          if r.Failure? {
            ReplayFailureSticks(steps, i + 1);
            outcome := r;
            return;
          }
      }
      i := i + 1;
    }
    assert steps[..i] == steps;
    reg.SortByKey();
    outcome := Success(());
  }

  /** Loading the module: the registrations of lines 136-949, then line 951. */
  method Startup() returns (reg: Registry, outcome: Result<(), Error>)
    ensures fresh(reg) && reg.Valid()
    ensures outcome.Success? <==> Replay(Registrations()).Success?
    ensures outcome.Success? ==> reg.Snapshot() == SortedByKey(Replay(Registrations()).value)
    ensures outcome.Failure? ==> Replay(Registrations()) == Failure(outcome.error)
  {
    reg, outcome := Load(Registrations());
  }

  // The registrations of lines 136-949, in source order. Commands that the
  // dispatch lemmas talk about are named.

  const OpenCommand := Command("open", [], OpenAccount, "Opens a new account")

  const PrintMoneyCommand := Command("print-money",
    [Param("amount", AsFraction, "Amount to print"),
     Param("account", AsAccountId, "Account to print to")],
    PrintMoney, "Print amount of money to account")

  const LeaderBoardCommand := Command("leader-board",
    [Param("limit", AsLimit, "the maximum number of accounts to display -1 for no limit")],
    LeaderBoard, "view a list of all public accounts sorted by balance")

  const AdminCreateRecurringTransferCommand := Command("admin-create-recurring-transfer",
    [Param("amount", AsFraction, "Amount to transfer"),
     Param("source", AsFraction, "Source to transfer from"),
     Param("destination", AsAccountId, "Beneficiary to transfer to"),
     Param("tick_count", AsInt, "Interval to transfer by, in ticks")],
    Glue("_create_recurring_transfer", ["amount", "destination", "tick_count"]),
    "Create a transfer from someone else which reccurs according to an interval")

  const ProxyCommand := Command("proxy",
    [Param("account", AsAccountId, "Account to proxy"),
     Param("command", AsText, "Command to run")],
    Proxy, "Proxy another account")

  const ProxyDsaCommand := Command("proxy-dsa",
    [Param("account", AsAccountId, "Account to proxy"),
     Param("signature", AsText, "ECDSA signature of command to run"),
     Param("command", AsText, "Command to run")],
    ProxyDsa, "Proxy another account using ECDSA verification")

  const AddTaxBracketCommand := Command("add-tax-bracket",
    [Param("start", AsFraction, "Lower bound of the tax bracket"),
     Param("end", AsFraction, "Upper bound of the tax bracker (-1 for infinity)"),
     Param("rate", AsFraction, "Tax rate"),
     Param("name", AsText, "Name of the tax bracket")],
    Glue("_add_tax_bracket", ["start", "rate", "end", "name"]),
    "Add a tax bracket")

  const ShootCommand := Command("shoot",
    [Param("victim", AsAccountId, "person to shoot")],
    Shoot, "shoots Account")

  const AuthorizeCommand := Command("authorize",
    [Param("account", AsAccountId, "Account to authorize"),
     Param("level", AsAuthorization, "Authorization level")],
    Glue("_authorize", ["account", "level"]), "Authorize a command")

  const HelpCommand := Command("help", [], Help, "List all commands")

  function Registrations(): seq<Registration>
  {
    [ AddCommand(Command("name", [], Glue("_name", []), "Produces your real or hypothetical account ID")),
      AddCommand(Command("transfer",
        [Param("amount", AsFraction, "Amount to transfer"),
         Param("destination", AsAccountId, "Beneficiary to transfer to")],
        Glue("_transfer", ["amount", "destination"]),
        "Transfers an amount of money from your account to a beneficiary's")),
      AddCommand(Command("admin-transfer",
        [Param("amount", AsFraction, "Amount to transfer"),
         Param("source", AsAccountId, "Account from which the amount is sent"),
         Param("destination", AsAccountId, "Beneficiary to transfer to")],
        Glue("_adm_transfer", ["amount", "source", "destination"]),
        "Transfers an amount of money from a source account to a beneficiary's")),
      AddCommand(OpenCommand),
      AddCommand(Command("toggle-public", [], Glue("_set_public", []),
        "toggle whether or not your account is public")),
      AddCommand(LeaderBoardCommand),
      AddAlias("leader-board", "lb"),
      AddCommand(Command("admin-open", [Param("account", AsAccountId, "Account to open")],
        Glue("_adm_open_account", ["account"]), "Open a new account for someone else")),
      AddCommand(Command("admin-freeze", [Param("account", AsAccountId, "Account to freeze")],
        Glue("_freeze_account", ["account"]), "Freeze an account")),
      AddCommand(Command("admin-unfreeze", [Param("account", AsAccountId, "Account to unfreeze")],
        Glue("_unfreeze_account", ["account"]), "Unfreeze an account")),
      AddCommand(Command("balance", [], Glue("_balance", []), "Print account balance")),
      AddAlias("balance", "bal"),
      AddCommand(Command("full-balance", [], Glue("_full_balance", []), "Print un-rounded balance")),
      AddAlias("full-balance", "full-bal"),
      AddCommand(Command("money-supply", [], Glue("_money_supply", []), "Print the total money supply")),
      AddCommand(Command("add-public-key", [Param("key", AsText, "Key to use")],
        Glue("_add_public_key", ["key"]), "Adds a public key to your account")),
      AddCommand(Command("list", [], Glue("_list_accounts", []), "List all accounts")),
      AddAlias("list", "ls"),
      AddCommand(PrintMoneyCommand),
      AddCommand(Command("remove-funds",
        [Param("amount", AsFraction, "Amount to delete"),
         Param("account", AsAccountId, "Account to print to")],
        Glue("_remove_funds", ["amount", "account"]), "Deletes fund from an account")),
      AddCommand(Command("create-recurring-transfer",
        [Param("amount", AsFraction, "Amount to transfer"),
         Param("destination", AsAccountId, "Beneficiary to transfer to"),
         Param("tick_count", AsInt, "Interval to transfer by, in ticks")],
        Glue("_create_recurring_transfer", ["amount", "destination", "tick_count"]),
        "Create a transfer which reccurs according to an interval")),
      AddCommand(AdminCreateRecurringTransferCommand),
      AddCommand(ProxyCommand),
      AddCommand(ProxyDsaCommand),
      AddCommand(Command("request-alias", [Param("account", AsAccountId, "Account to alias")],
        Glue("_request_alias", ["alias"]), "Request an alias code")),
      AddCommand(Command("add-alias",
        [Param("account", AsAccountId, "Account to alias"),
         Param("request_code", AsText, "Code generated on the other account")],
        Glue("_add_alias", ["account", "request_code"]), "Add another account as an alias")),
      AddCommand(Command("admin-add-proxy",
        [Param("proxy", AsAccountId, "Account that will be able to act as a proxy for `account`"),
         Param("account", AsAccountId, "Account that `proxy` will be able to access")],
        Glue("_admin_add_proxy", ["proxy", "account"]), "Let an account proxy another account")),
      AddCommand(Command("admin-remove-proxy",
        [Param("proxy", AsAccountId, "Account that can currently act as a proxy for `account`"),
         Param("account", AsAccountId, "Account that `proxy` will no longer be able to access")],
        Glue("_admin_remove_proxy", ["proxy", "account"]), "Unlet an account proxy another account")),
      AddCommand(Command("admin-delete-account", [Param("account", AsAccountId, "Account to delete")],
        Glue("_delete_account", ["account"]), "Delete an account")),
      AddCommand(AddTaxBracketCommand),
      AddCommand(Command("remove-tax-bracket", [Param("name", AsText, "Name of the bracket to delete")],
        Glue("_remove_tax_bracket", ["name"]), "Removes a tax bracker")),
      AddCommand(Command("force-tax", [], Glue("_force_tax", []), "Manually apply tax brakcets")),
      AddCommand(Command("auto-tax", [], Glue("_toggle_auto_tax", []), "Toggle automatic taxation")),
      AddCommand(Command("force-ticks", [Param("ticks", AsInt, "Amount of ticks to force")],
        Glue("_force_ticks", ["ticks"]), "Forcibly run ticks")),
      AddCommand(ShootCommand),
      AddCommand(Command("set-gun-price", [Param("price", AsFraction, "price for new guns")],
        Glue("_set_gun_price", ["price"]), "Sets the price of a gun")),
      AddCommand(Command("set-vest-price", [Param("price", AsFraction, "price for new vests")],
        Glue("_set_vest_price", ["price"]), "sets the price of a vest")),
      AddCommand(Command("buy-gun", [], Glue("_buy_gun", []), "buys a gun")),
      AddCommand(Command("buy-vest", [], Glue("_buy_vest", []), "buys a vest")),
      AddCommand(Command("gun-balance", [], Glue("_gun_balance", []), "displays how many guns you own")),
      AddAlias("gun-balance", "gun-bal"),
      AddCommand(Command("vest-balance", [], Glue("_vest_balance", []),
        "displays whether or not you have a vest")),
      AddAlias("vest-balance", "vest-bal"),
      AddCommand(Command("buy-farm", [Param("farm-type", AsText, "Type of the farm you want to buy")],
        Glue("_buy_farm", ["farm_name"]), "Buys a farm")),
      AddCommand(Command("set-farm-type-cost",
        [Param("farm-type", AsText, "Type of the farm you want to change the cost of"),
         Param("new-cost", AsFraction, "The new cost of the farm")],
        Glue("_set_farm_type_cost", ["farm_name", "new_cost"]), "Sets the cost of a type of farm")),
      AddCommand(Command("set-farm-type-duration",
        [Param("farm-type", AsText, "Type of farm you want to change the duration of"),
         Param("new-duration", AsInt, "New duration for that Farm Type")],
        Glue("_set_farm_type_duration", ["farm_name", "new_duration"]),
        "Sets the duration of a given farm type")),
      AddCommand(Command("set-farm-type-returns",
        [Param("farm-type", AsText, "Type of the farm you want to change the returns of"),
         Param("new-returns", AsFraction, "The new returns")],
        Glue("_set_farm_type_returns", ["farm_name", "new_returns"]),
        "Sets the returns per day for a given farm type")),
      AddCommand(Command("farm-balance", [], Glue("_farm_balance", []), "displays your farms")),
      AddCommand(AuthorizeCommand),
      AddAlias("authorize", "authorise"),
      AddCommand(HelpCommand)
    ]
  }
}
