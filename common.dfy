/** Values shared by the back end and the two Streamlit front ends. */
module Common {

  datatype Option<T> = None | Some(value: T) {
    /** `value` when present, otherwise `default` (Python's `d.get(key, default)`). */
    function GetOr(default: T): T {
      match this
      case Some(v) => v
      case None => default
    }
  }

  /** The outcome of a call that may raise; `Err` carries the exception's message. */
  datatype Result<T, E> = Ok(value: T) | Err(error: E)

  /** A metadata value of a loaded document: loaders record page numbers and file paths. */
  datatype MetaValue = MStr(s: string) | MInt(i: int)

  /** LangChain's `Document`: the text of one page (or chunk) and its metadata. */
  datatype Doc = Doc(pageContent: string, metadata: map<string, MetaValue>)

  /** A file handed over by an upload widget or an upload form: its name and its bytes. */
  datatype UploadedFile = UploadedFile(name: string, data: seq<bv8>)

  function Min(a: int, b: int): int { if a <= b then a else b }

  function Max(a: int, b: int): int { if a <= b then b else a }

  /** Python's `s[1:]`: empty for an empty sequence. */
  function DropFirst<T>(s: seq<T>): (r: seq<T>)
    ensures |r| == Max(|s| - 1, 0)
    ensures forall i :: 0 <= i < |r| ==> r[i] == s[i + 1]
  {
    if s == [] then [] else s[1..]
  }

  function DigitChar(d: nat): (c: char)
    requires d < 10
    ensures '0' <= c <= '9'
  {
    ['0', '1', '2', '3', '4', '5', '6', '7', '8', '9'][d]
  }

  /** Python's `str(n)` for a non-negative integer. */
  function NatToString(n: nat): (s: string)
    ensures |s| >= 1
    ensures forall i :: 0 <= i < |s| ==> '0' <= s[i] <= '9'
    ensures n >= 10 ==> |s| >= 2
  {
    if n < 10 then [DigitChar(n)] else NatToString(n / 10) + [DigitChar(n % 10)]
  }

  /** Python's `str(i)` for any integer. */
  function IntToString(i: int): (s: string)
    ensures |s| >= 1
    ensures i < 0 ==> s[0] == '-'
    ensures i >= 0 ==> '0' <= s[0] <= '9'
  {
    if i < 0 then "-" + NatToString(-i) else NatToString(i)
  }

  /** Python's `str(v)` for a metadata value. */
  function MetaToString(v: MetaValue): string {
    match v
    case MStr(s) => s
    case MInt(i) => IntToString(i)
  }
}
