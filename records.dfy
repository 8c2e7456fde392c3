/** The external tabular source as the core sees it: a raw record with its
    identifier, creation time and cells, and the answer to a fetch. */
module AirtableRecords {
  import opened Wrappers
  import opened JsValues

  /** `readError` is Some(message) for a record whose cells cannot be read:
      every `record.get` on it throws an Error with that message. */
  datatype RawRecord = RawRecord(
    id: string,
    createdTime: string,
    fields: map<string, Value>,
    readError: Option<string>)

  /** `record.get(name)` on a readable record: undefined for an empty cell. */
  function Get(record: RawRecord, name: string): (v: Value)
    ensures name !in record.fields ==> v == Undefined
  {
    if name in record.fields then record.fields[name] else Undefined
  }

  /** The answer of `table.select().all()`: the records in table order, or
      the message of the error it rejected with. */
  type FetchResult = Result<seq<RawRecord>>
}
