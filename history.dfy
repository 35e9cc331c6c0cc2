/** The router's history operations the pages perform: `history.push(path, state)`
    and `history.replace(path)`. Navigation state is a plain object. */
module History {
  import opened JsValues

  datatype HistoryOp =
    | Push(path: string, state: map<string, Json>)
    | Replace(path: string)
}
