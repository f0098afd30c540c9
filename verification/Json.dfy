/** JSON documents, compared structurally: equality here is equality of canonical JSON text. */
module JsonValue {

  datatype Json =
    | Null
    | Bool(truth: bool)
    | Int(whole: int)
    | Float(number: real)
    | Str(text: string)
    | Arr(items: seq<Json>)
    | Obj(fields: map<string, Json>)
  {
    predicate Scalar() { !Arr? && !Obj? }
  }

  const EMPTY_OBJECT := Obj(map[])
}

/** The finite life of one process. */
module ProcessStatus {

  datatype Status =
    | Pending | Ready | Running | Waiting | RetryWait | CancelRequested
    | Succeeded | Failed | Skipped | Cancelled | TimedOut

  predicate Terminal(s: Status) {
    s.Succeeded? || s.Failed? || s.Skipped? || s.Cancelled? || s.TimedOut?
  }
}
