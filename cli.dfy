/**
 * The command-line handler `main` of tracker.py: it recognises only the `add`
 * command, looks up the token after the first `--description` and the first
 * `--amount`, rejects a negative amount, and otherwise adds one expense.
 */
module CommandLine {
  import opened Wrappers
  import opened ExpenseStore

  const AddCommand := "add"
  const DescriptionFlag := "--description"
  const AmountFlag := "--amount"

  /** The refusals `main` reports, one per message it can print instead of adding. */
  datatype Failure =
    | UnknownCommand   // no command, or a command other than `add`
    | MissingFlag      // `add` without `--description` or without `--amount`
    | InvalidUsage     // a flag is the final token, or the amount does not parse
    | NegativeAmount   // the amount parses to a value below zero

  /** What the argument vector asks for. */
  datatype Command = Rejected(failure: Failure) | AddExpense(description: string, amount: real)

  /** What one run of the program reports. */
  datatype Report = Added(id: int) | Refused(failure: Failure)

  /** Position i holds x and no earlier position does. */
  ghost predicate FirstAt(s: seq<string>, x: string, i: int)
  {
    0 <= i < |s| && s[i] == x && x !in s[..i]
  }

  /** The position of the first occurrence of x, as Python's `list.index` finds it. */
  function IndexOf(s: seq<string>, x: string): (r: Option<nat>)
    ensures r.None? <==> x !in s
    ensures r.Some? ==> FirstAt(s, x, r.value)
  {
    if |s| == 0 then None
    else if s[0] == x then Some(0)
    else
      match IndexOf(s[1..], x)
      case None => None
      case Some(i) =>
        assert s[..i + 1] == [s[0]] + s[1..][..i];
        Some(i + 1)
  }

  /**
   * The decision tree of `main` over the argument vector (argv[0] is the
   * program name). `parseAmount` stands for Python's `float` on a string:
   * None where it would raise ValueError.
   */
  function ParseAdd(argv: seq<string>, parseAmount: string -> Option<real>): (r: Command)
    ensures r.AddExpense? ==> |argv| >= 2 && argv[1] == AddCommand && r.amount >= 0.0
  {
    if !(|argv| >= 2 && argv[1] == AddCommand) then
      Rejected(UnknownCommand)
    else if !(DescriptionFlag in argv && AmountFlag in argv) then
      Rejected(MissingFlag)
    else
      var descIndex := IndexOf(argv, DescriptionFlag).value + 1;
      var amountIndex := IndexOf(argv, AmountFlag).value + 1;
      if descIndex >= |argv| || amountIndex >= |argv| then
        Rejected(InvalidUsage)
      else
        match parseAmount(argv[amountIndex])
        case None => Rejected(InvalidUsage)
        case Some(amount) =>
          if amount < 0.0 then Rejected(NegativeAmount) else AddExpense(argv[descIndex], amount)
  }

  /** Exactly the runs without `add` in position 1 are refused as an unknown command. */
  lemma ParseAddUnknownCommand(argv: seq<string>, parseAmount: string -> Option<real>)
    ensures ParseAdd(argv, parseAmount) == Rejected(UnknownCommand)
        <==> |argv| < 2 || argv[1] != AddCommand
  {
  }

  /** Exactly the `add` runs lacking either flag are refused with the usage message. */
  lemma ParseAddMissingFlag(argv: seq<string>, parseAmount: string -> Option<real>)
    ensures ParseAdd(argv, parseAmount) == Rejected(MissingFlag)
        <==> |argv| >= 2 && argv[1] == AddCommand && (DescriptionFlag !in argv || AmountFlag !in argv)
  {
  }

  /**
   * With both flags present, the outcome is decided by the tokens right after
   * their first occurrences i and j.
   */
  lemma ParseAddAtFirstFlags(argv: seq<string>, parseAmount: string -> Option<real>, i: int, j: int)
    requires |argv| >= 2 && argv[1] == AddCommand
    requires FirstAt(argv, DescriptionFlag, i) && FirstAt(argv, AmountFlag, j)
    ensures i + 1 >= |argv| || j + 1 >= |argv| ==> ParseAdd(argv, parseAmount) == Rejected(InvalidUsage)
    ensures i + 1 < |argv| && j + 1 < |argv| ==>
      ParseAdd(argv, parseAmount) ==
        match parseAmount(argv[j + 1])
        case None => Rejected(InvalidUsage)
        case Some(amount) =>
          if amount < 0.0 then Rejected(NegativeAmount) else AddExpense(argv[i + 1], amount)
  {
  }

  /** A flag whose first occurrence is the final token makes the run invalid usage. */
  lemma ParseAddFlagLast(argv: seq<string>, parseAmount: string -> Option<real>, flag: string)
    requires |argv| >= 2 && argv[1] == AddCommand
    requires DescriptionFlag in argv && AmountFlag in argv
    requires flag == DescriptionFlag || flag == AmountFlag
    requires FirstAt(argv, flag, |argv| - 1)
    ensures ParseAdd(argv, parseAmount) == Rejected(InvalidUsage)
  {
  }

  /**
   * An accepted run carries the token after the first `--description` verbatim
   * and the parsed token after the first `--amount`, which is not negative.
   */
  lemma ParseAddAccepted(argv: seq<string>, parseAmount: string -> Option<real>)
    requires ParseAdd(argv, parseAmount).AddExpense?
    ensures var r := ParseAdd(argv, parseAmount);
      exists i, j :: FirstAt(argv, DescriptionFlag, i) && FirstAt(argv, AmountFlag, j) &&
        i + 1 < |argv| && j + 1 < |argv| &&
        r.description == argv[i + 1] && parseAmount(argv[j + 1]) == Some(r.amount) && r.amount >= 0.0
  {
  }

  /**
   * One run of the program against the store: an accepted `add` appends exactly
   * one record and reports its id; every refusal leaves the store as it was.
   */
  method Run(store: Store, argv: seq<string>, parseAmount: string -> Option<real>, today: string)
    returns (report: Report)
    modifies store
    ensures match ParseAdd(argv, parseAmount)
      case Rejected(failure) =>
        report == Refused(failure) && store.expenses == old(store.expenses)
      case AddExpense(description, amount) =>
        report == Added(NextId(old(store.expenses))) &&
        store.expenses == old(store.expenses) + [Expense(NextId(old(store.expenses)), today, description, amount)]
    ensures old(store.Valid()) ==> store.Valid()
  {
    var command := ParseAdd(argv, parseAmount);
    match command
    case Rejected(failure) =>
      report := Refused(failure);
    case AddExpense(description, amount) =>
      var id := store.Add(description, amount, today);
      report := Added(id);
  }
}
