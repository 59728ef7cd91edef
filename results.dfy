/** The records the program collects and renders: one result set maps each
    implementation name to the outcomes of its versions. */
module Results {
  import opened Common

  /** One `key: value` pair of a parsed JSON object; the value is kept as
      the text `"{}".format(value)` prints for it. */
  datatype Field = Field(key: string, value: string)

  /** The `out` entry of a record: None, a captured text, or the object the
      text parsed to. */
  datatype Out = Missing | Text(text: string) | Structured(fields: seq<Field>)

  /** `{"version": ..., "out": ..., "ret": ...}`. */
  datatype Record = Record(version: string, out: Out, ret: int)

  /** One key of the result set with its list, in the dictionary's order. */
  datatype Group = Group(name: string, records: seq<Record>)

  /** Python truthiness of `out`: None, `""` and `{}` are false. */
  predicate Truthy(o: Out)
  {
    match o
    case Missing => false
    case Text(t) => t != ""
    case Structured(f) => f != []
  }

  /** The `out` of a record made from what the runner returned. */
  function OutOf(o: Option<string>): Out
  {
    match o
    case None => Missing
    case Some(t) => Text(t)
  }
}
