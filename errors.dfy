/** The application's error taxonomy (`AppError`) and its conversions. */
module Errors {

  /**
   * One variant per kind of failure, each carrying its message. `Database` is
   * constructed by the ledger store (its SQLite failures) alongside the eight
   * variants the enum declares.
   */
  datatype AppError =
    | Io(msg: string)
    | Network(msg: string)
    | Serialization(msg: string)
    | Audio(msg: string)
    | Validation(msg: string)
    | NotFound(msg: string)
    | Logic(msg: string)
    | Unexpected(msg: string)
    | Database(msg: string)

  /** The fixed text each variant's display starts with. */
  function Prefix(e: AppError): string {
    match e
    case Io(_) => "IO Error: "
    case Network(_) => "Network Error: "
    case Serialization(_) => "Serialization Error: "
    case Audio(_) => "Audio Error: "
    case Validation(_) => "Validation Error: "
    case NotFound(_) => "Not Found: "
    case Logic(_) => "Logic Error: "
    case Unexpected(_) => "Unexpected Error: "
    case Database(_) => "Database Error: "
  }

  /** The `Display` text: the variant's prefix followed by its message. */
  function Display(e: AppError): string {
    Prefix(e) + e.msg
  }

  /** Different errors never display alike: the display text determines the error. */
  lemma DisplayInjective(a: AppError, b: AppError)
    requires Display(a) == Display(b)
    ensures a == b
  {
    var s := Display(a);
    assert s[0] == Prefix(a)[0] == Prefix(b)[0];
    assert s[1] == Prefix(a)[1] == Prefix(b)[1];
    assert Prefix(a) == Prefix(b);
    assert a.msg == s[|Prefix(a)|..] == b.msg;
  }

  /** `From<std::io::Error>`: the error's text becomes an `Io` message. */
  function FromIoError(text: string): (e: AppError)
    ensures e.Io? && e.msg == text
    ensures Display(e) == "IO Error: " + text
  {
    Io(text)
  }

  /** `From<reqwest::Error>`: an HTTP client failure becomes a `Network` error. */
  function FromHttpError(text: string): (e: AppError)
    ensures e.Network? && e.msg == text
    ensures Display(e) == "Network Error: " + text
  {
    Network(text)
  }

  /** `From<serde_json::Error>`: a JSON failure becomes a `Serialization` error. */
  function FromJsonError(text: string): (e: AppError)
    ensures e.Serialization? && e.msg == text
    ensures Display(e) == "Serialization Error: " + text
  {
    Serialization(text)
  }

  /** `From<String>` and `From<&str>`: plain text becomes an `Unexpected` error. */
  function FromText(text: string): (e: AppError)
    ensures e.Unexpected? && e.msg == text
    ensures Display(e) == "Unexpected Error: " + text
  {
    Unexpected(text)
  }
}
