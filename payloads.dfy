/** Values shared by the ledger and the document service. */
module Payloads {

  datatype Option<+T> = None | Some(value: T)

  /** The data a block carries: either a plain string (the genesis block's
      "Genesis Block") or a dictionary of string fields (a document record). */
  datatype Payload = Text(text: string) | Record(fields: map<string, string>)

  /** A dictionary's `get`: the value under `key`, or None when it is absent. */
  function Get(fields: map<string, string>, key: string): (r: Option<string>)
    ensures r.Some? <==> key in fields
    ensures r.Some? ==> r.value == fields[key]
  {
    if key in fields then Some(fields[key]) else None
  }
}
