/**
 * `PrestoBaseException`, the structured error with a status-like code, and
 * `Exc`, the exceptions the modelled code raises or lets through.
 */
module BaseException {
  import opened Wrappers
  import opened Strings

  /** The code a `PrestoBaseException` carries when none is given. */
  const DEFAULT_ERROR_CODE: int := 500

  datatype PrestoBaseException = PrestoBaseException(message: string, errorCode: int) {

    /** The arguments the underlying `Exception` is initialised with: the raw message alone. */
    function Args(): seq<string> {
      [message]
    }

    /** `__str__`: the decimal code, then ": ", then the message. */
    function ToString(): string {
      IntToString(errorCode) + ": " + message
    }
  }

  /** `PrestoBaseException(message, error_code=500)`. */
  function NewPrestoBaseException(message: string, errorCode: int := DEFAULT_ERROR_CODE): (e: PrestoBaseException)
    ensures e.message == message && e.errorCode == errorCode
    ensures e.Args() == [message]
  {
    PrestoBaseException(message, errorCode)
  }

  /** Reads a `__str__` text back: the number before the first ": ", and everything after it. */
  function ParseExceptionText(s: string): Option<(int, string)> {
    match Find(s, ": ")
    case None => None
    case Some(k) =>
      match ParseInt(s[..k])
      case None => None
      case Some(code) => Some((code, s[k + 2..]))
  }

  /** The string form determines the exception: code and message are read back unchanged. */
  lemma ToStringRoundTrip(e: PrestoBaseException)
    ensures ParseExceptionText(e.ToString()) == Some((e.errorCode, e.message))
  {
    var code := IntToString(e.errorCode);
    var s := e.ToString();
    assert s == code + ": " + e.message;
    assert OccursAt(s, ": ", |code|) by {
      assert s[|code|..|code| + 2] == ": ";
    }
    forall j: nat | j < |code| ensures !OccursAt(s, ": ", j) {
      assert s[j] == code[j];
      assert IsDigit(code[j]) || code[j] == '-';
      if j + 2 <= |s| {
        assert s[j..j + 2][0] == s[j];
      }
    }
    assert Find(s, ": ") == Some(|code|);
    assert s[..|code|] == code;
    assert s[|code| + 2..] == e.message;
    ParseIntOfIntToString(e.errorCode);
  }

  /** The exceptions that travel through the modelled code. */
  datatype Exc =
    | Presto(exception: PrestoBaseException)
    | KeyError(key: string)
    | AttributeError(name: string)
    | TypeError
    | IndexError
    | ValueError(message: string)
    | AssertionError
    | ValidationError(field: string)
    | ImportError(moduleName: string)
    | StoreError
  {
    /** The status-like code, when this is a `PrestoBaseException`. */
    function Code(): Option<int> {
      if Presto? then Some(exception.errorCode) else None
    }
  }

  /** `raise PrestoBaseException(message, code)`. */
  function Raise(message: string, code: int): (x: Exc)
    ensures x.Code() == Some(code)
  {
    Presto(PrestoBaseException(message, code))
  }
}
