/** Conversions between the return conventions of Win32 calls and Rust results
    (src/win2/error.rs). The last OS error that a failing call leaves behind
    cannot be observed here, so it is a parameter of the conversions. */
module Win32Result {
  import Prelude

  /** The crate's own two-variant result, declared `Err` first. */
  datatype WindowsResult<T, E> = Err(error: E) | Ok(value: T)

  /** `From<isize | u32 | i32> for WindowsResult`: a Win32 integer return value
      of zero signals failure and carries the last OS error; any other value
      is a success that carries the value itself. */
  function FromInteger<E>(returnValue: int, lastOsError: E): (r: WindowsResult<int, E>)
    ensures r.Err? <==> returnValue == 0
    ensures r.Err? ==> r.error == lastOsError
    ensures r.Ok? ==> r.value == returnValue
  {
    match returnValue
    case 0 => Err(lastOsError)
    case _ => Ok(returnValue)
  }

  /** `From<WindowsResult<T, E>> for Result<T, E>`: same variant, same payload. */
  function IntoResult<T, E>(w: WindowsResult<T, E>): (r: Prelude.Result<T, E>)
    ensures r.Ok? <==> w.Ok?
    ensures r.Ok? ==> r.value == w.value
    ensures r.Err? ==> r.error == w.error
  {
    match w
    case Err(e) => Prelude.Result.Err(e)
    case Ok(v) => Prelude.Result.Ok(v)
  }

  /** The inverse direction, used only to state that `IntoResult` loses nothing. */
  function FromResult<T, E>(r: Prelude.Result<T, E>): WindowsResult<T, E> {
    match r
    case Err(e) => Err(e)
    case Ok(v) => Ok(v)
  }

  /** `IntoResult` is a bijection between the two result types. */
  lemma IntoResultIsBijective<T, E>(w: WindowsResult<T, E>, r: Prelude.Result<T, E>)
    ensures FromResult(IntoResult(w)) == w
    ensures IntoResult(FromResult(r)) == r
  {
  }

  /** A zero return that goes through both conversions is an error result. */
  lemma ZeroIsError<E>(lastOsError: E)
    ensures IntoResult(FromInteger(0, lastOsError)) == Prelude.Result.Err(lastOsError)
  {
  }

  /** `windows::runtime::Result<T>::ok()` for a Win32 `BOOL`: false is a failure
      carrying the last OS error, true is success. */
  function BoolOk<E>(b: bool, lastOsError: E): (r: Prelude.Result<(), E>)
    ensures r.Ok? <==> b
    ensures r.Err? ==> r.error == lastOsError
  {
    if b then Prelude.Result.Ok(()) else Prelude.Result.Err(lastOsError)
  }

  /** `TakeWindowsCrateResult::end`: keeps a success as it is and converts the
      error of a failure with `into` (the `From<windows::Error> for io::Error`
      conversion, which belongs to the `windows` crate and is a parameter here). */
  function End<T, WinError, IoError>(r: Prelude.Result<T, WinError>, into: WinError -> IoError): (r': Prelude.Result<T, IoError>)
    ensures r'.Ok? <==> r.Ok?
    ensures r'.Ok? ==> r'.value == r.value
    ensures r'.Err? ==> r'.error == into(r.error)
  {
    match r
    case Ok(v) => Prelude.Result.Ok(v)
    case Err(e) => Prelude.Result.Err(into(e))
  }

  /** With the identity conversion, `End` returns its argument unchanged. */
  lemma EndWithIdentity<T, E>(r: Prelude.Result<T, E>)
    ensures End(r, (e: E) => e) == r
  {
  }
}
