/** Types shared by every part of the model: the ledger row the program
    writes out, the cell that holds an amount, and the exceptions that end a
    run. */
module Ledger {

  datatype Option<T> = None | Some(value: T)

  /** The exceptions the program can raise. None of them is caught, so each
      one ends the whole run. */
  datatype Failure =
    | NoAccountFound(path: string)   // RuntimeError raised by find_account
    | NoDateInLine(line: string)     // AttributeError: the date search found no match
    | NoAmountInLine(line: string)   // AttributeError: the amount search found no match
    | NothingToConcatenate           // ValueError: concatenating an empty list of frames

  datatype Result<T> = Ok(value: T) | Err(failure: Failure) {
    predicate IsFailure() { Err? }

    function PropagateFailure<U>(): Result<U>
      requires Err?
    {
      Err(failure)
    }

    function Extract(): T
      requires Ok?
    {
      value
    }
  }

  /** An Amount cell. A Wells Fargo PDF row keeps the matched text; a CSV row
      holds a number, here an exact number of cents, where None stands for a
      missing value (NaN). */
  datatype Cell = Text(text: string) | Cents(cents: Option<int>)

  /** One row of the aggregated ledger, columns in output order. */
  datatype LedgerRow = LedgerRow(date: string, description: string, amount: Cell, account: string)

  const LedgerColumns: seq<string> := ["Date", "Description", "Amount", "Account"]
}
