/** The values a TOML key can have, and their types (toml's tomlType). */
module TomlData {

  /** Values below a key.  Floats and datetimes keep their text. */
  datatype Val =
    | Text(s: string) | Boolean(b: bool) | Integer(n: int)
    | FloatNum(text: string) | Datetime(text: string)
    | Arr(elems: seq<Val>)

  datatype ValType = TString | TBool | TInteger | TFloat | TDatetime | TArray

  function TypeOf(v: Val): ValType {
    match v
    case Text(_) => TString
    case Boolean(_) => TBool
    case Integer(_) => TInteger
    case FloatNum(_) => TFloat
    case Datetime(_) => TDatetime
    case Arr(_) => TArray
  }

  predicate Homogeneous(vs: seq<Val>) {
    forall i | 0 <= i < |vs| :: TypeOf(vs[i]) == TypeOf(vs[0])
  }
}
