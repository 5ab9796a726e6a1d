/**
 * Stand-ins for what flags2_asyncio_executor.py imports from flags2_common
 * (HTTPStatus, Result, save_flag), and the string helpers the download code
 * uses on country codes.
 */
module FlagsCommon {

  datatype Option<T> = None | Some(value: T)

  /** HTTPStatus: the three outcomes a country code can be counted under
      (HTTPStatus.ok, HTTPStatus.not_found, HTTPStatus.error). */
  datatype HttpStatus = Ok | NotFound | Error

  /** Result(status, cc): what a finished download reports. */
  datatype FlagResult = FlagResult(status: HttpStatus, cc: string)

  /** One call save_flag(image, filename) handed to the thread-pool executor.
      Only the arguments are modelled; what save_flag does with them is not. */
  datatype SaveJob = SaveJob(image: seq<bv8>, fileName: string)

  predicate IsUpper(c: char) {
    'A' <= c <= 'Z'
  }

  function LowerChar(c: char): char {
    if IsUpper(c) then (c as int + 32) as char else c
  }

  /** str.lower() on the ASCII letters a country code is made of. */
  function Lower(s: string): (r: string)
    ensures |r| == |s|
    ensures forall i :: 0 <= i < |r| ==> !IsUpper(r[i])
    ensures forall i :: 0 <= i < |s| && !IsUpper(s[i]) ==> r[i] == s[i]
    ensures forall i :: 0 <= i < |s| && IsUpper(s[i]) ==> r[i] as int == s[i] as int + 32
  {
    seq(|s|, i requires 0 <= i < |s| => LowerChar(s[i]))
  }

  /** Lower-casing twice is lower-casing once. */
  lemma LowerIdempotent(s: string)
    ensures Lower(Lower(s)) == Lower(s)
  {
  }
}
