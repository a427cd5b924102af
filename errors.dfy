/** The exception taxonomy of the request layer (main.py:27-53) and the
    decimal rendering of status codes used inside its messages. */
module Errors {
  import opened Wrappers
  import opened JsonValues

  /** Which class of the taxonomy an error is raised as. `ApiBase` is the base
      class `GoogleSheetsAPIError` itself. `AttributeFault` is not part of the
      taxonomy: it stands for the Python `AttributeError` that escapes when the
      broker's body does not have the shape the token extraction expects. */
  datatype ErrorKind =
    | Validation
    | Authentication
    | Authorization
    | ResourceNotFound
    | QuotaExceeded
    | ApiBase
    | AttributeFault

  /** One piece of an error message. `Shown(v)` is Python's `str(v)` of a
      decoded value that is not a string; its rendering is not modelled. */
  datatype Text = Lit(s: string) | Shown(v: Json)

  /** An error as constructed by `GoogleSheetsAPIError.__init__`: kind,
      message (the concatenation of its pieces), optional status code and the
      attached response data (`JNull` when there is none). */
  datatype ApiError = ApiError(kind: ErrorKind, message: seq<Text>, status: Option<nat>, payload: Json)

  /** An error built from a message alone, as most `raise` sites do. */
  function Plain(kind: ErrorKind, message: string): (e: ApiError)
    ensures e.kind == kind && e.status == None && e.payload == JNull
  {
    ApiError(kind, [Lit(message)], None, JNull)
  }

  /** How an f-string renders a value taken from a decoded document. */
  function Display(v: Json): (t: Text)
    ensures v.JStr? ==> t == Lit(v.s)
    ensures !v.JStr? ==> t == Shown(v)
  {
    if v.JStr? then Lit(v.s) else Shown(v)
  }

  // ---------------------------------------------------------------------
  // Decimal rendering of status codes, as in f"HTTP {status_code} error".

  function DigitChar(d: nat): (c: char)
    requires d < 10
    ensures '0' <= c <= '9'
  {
    "0123456789"[d]
  }

  function DigitValue(c: char): nat
    requires '0' <= c <= '9'
  {
    (c as int - '0' as int) as nat
  }

  predicate IsDigits(s: string) {
    forall i :: 0 <= i < |s| ==> '0' <= s[i] <= '9'
  }

  /** `str(n)` for a non-negative integer. */
  function Decimal(n: nat): (s: string)
    ensures |s| >= 1 && IsDigits(s)
    ensures |s| > 1 ==> s[0] != '0'
  {
    if n < 10 then [DigitChar(n)] else Decimal(n / 10) + [DigitChar(n % 10)]
  }

  /** The number a string of decimal digits denotes. */
  function DecimalValue(s: string): nat
    requires IsDigits(s)
  {
    if s == [] then 0 else 10 * DecimalValue(s[..|s| - 1]) + DigitValue(s[|s| - 1])
  }

  /** Reading back the rendering of a status code gives the status code: the
      rendered message really carries the number. */
  lemma {:induction false} DecimalRoundTrip(n: nat)
    ensures DecimalValue(Decimal(n)) == n
  {
    var s := Decimal(n);
    if n < 10 {
      assert DigitValue(DigitChar(n)) == n;
      assert s[..0] == [];
    } else {
      var t := Decimal(n / 10);
      assert s[..|s| - 1] == t;
      assert DigitValue(DigitChar(n % 10)) == n % 10;
      DecimalRoundTrip(n / 10);
    }
  }

  /** Distinct status codes render differently. */
  lemma DecimalInjective(m: nat, n: nat)
    ensures Decimal(m) == Decimal(n) ==> m == n
  {
    DecimalRoundTrip(m);
    DecimalRoundTrip(n);
  }
}
