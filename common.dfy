/** Values shared by the registry, the supervisor and the dispatcher:
    Rust's Option and Result, the opaque error payloads of the standard
    library and of the decoders, Windows path joining and decimal rendering. */
module Common {

  datatype Option<+T> = None | Some(value: T) {
    function GetOr(default: T): T {
      match this
      case Some(v) => v
      case None => default
    }
  }

  datatype Result<+T, +E> = Ok(value: T) | Err(error: E)

  /** An `std::io::Error`, known here only by its `{:?}` rendering. */
  datatype OsError = OsError(debug: string)

  /** A decoder error (`toml::de::Error`, `serde_json::Error`), known here only
      by its `{:?}` rendering. */
  datatype SyntaxError = SyntaxError(debug: string)

  /** `Path::join` on Windows for a relative leaf: the directory, a separator, the leaf. */
  function Join(dir: string, leaf: string): (p: string)
    ensures |p| == |dir| + 1 + |leaf|
    ensures p[..|dir|] == dir && p[|dir|] == '\\' && p[|dir| + 1..] == leaf
  {
    dir + "\\" + leaf
  }

  function DigitChar(d: nat): (c: char)
    requires d < 10
    ensures '0' <= c <= '9' && c as int - '0' as int == d
  {
    "0123456789"[d]
  }

  /** The decimal rendering of a natural number, as Rust's `Display`/`Debug` print it. */
  function Decimal(n: nat): (s: string)
    ensures |s| >= 1
    ensures forall i :: 0 <= i < |s| ==> '0' <= s[i] <= '9'
    ensures DecimalValue(s) == n
    decreases n
  {
    if n < 10 then [DigitChar(n)] else Decimal(n / 10) + [DigitChar(n % 10)]
  }

  /** The number a string of decimal digits denotes. */
  function DecimalValue(s: string): int
    decreases |s|
  {
    if s == [] then 0 else 10 * DecimalValue(s[..|s| - 1]) + (s[|s| - 1] as int - '0' as int)
  }
}
