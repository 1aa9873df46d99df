/**
 The problem record as the extension stores it under its storage key: a plain JSON
 object `{ url, platform, title, tags, status, dateAdded, dateSolved }`, keyed in the
 stored map by its canonical URL.
 */
module Records {

  datatype Platform = CF | LC

  function PlatformName(p: Platform): string {
    match p
    case CF => "CF"
    case LC => "LC"
  }

  /** The JSON values the extension writes into a record. `Time(t)` stands for the
      ISO-8601 string of clock instant `t`. */
  datatype Value = Null | Str(s: string) | Strs(items: seq<string>) | Time(t: int)

  /** A record is a JavaScript object: a finite map from property names to values.
      Absent properties read as `undefined`. */
  type Record = map<string, Value>

  /** The stored collection: canonical URL to record. */
  type Problems = map<string, Record>

  const UrlKey := "url"
  const PlatformKey := "platform"
  const TitleKey := "title"
  const TagsKey := "tags"
  const StatusKey := "status"
  const DateAddedKey := "dateAdded"
  const DateSolvedKey := "dateSolved"

  const Unsolved := "Unsolved"
  const Solved := "Solved"

  /** JavaScript truthiness of a property value (`undefined` is absence). */
  predicate Truthy(v: Value) {
    match v
    case Null => false
    case Str(s) => s != ""
    case Strs(_) => true
    case Time(_) => true
  }

  /** `record[key] === value` for a string `value`. */
  predicate HasString(r: Record, key: string, value: string) {
    key in r && r[key] == Str(value)
  }
}
