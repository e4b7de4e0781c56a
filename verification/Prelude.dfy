/** Optional values, results, the error kinds of the application, and the few
    string operations its guards depend on. */
module Prelude {

  datatype Option<+T> = None | Some(value: T)

  datatype Result<+T> = Success(value: T) | Failure(error: Error)

  datatype Error =
    | InvalidTransition
    | EvidenceMissing
    | ValueError
    | ConcurrencyConflict
    | NotFound
    | RuntimeError

  predicate NoRepeats<T(==)>(items: seq<T>) {
    forall i, j :: 0 <= i < j < |items| ==> items[i] != items[j]
  }

  /** ASCII white space, the part of `str.strip` that is modelled. */
  predicate IsSpace(c: char) {
    c == ' ' || c == '\t' || c == '\n' || c == '\r'
  }

  function Strip(s: string): string
    decreases |s|
  {
    if s == "" then ""
    else if IsSpace(s[0]) then Strip(s[1..])
    else if IsSpace(s[|s| - 1]) then Strip(s[..|s| - 1])
    else s
  }

  /** `text.strip()[:limit]`. */
  function Trim(text: string, limit: nat): string {
    var s := Strip(text);
    if |s| > limit then s[..limit] else s
  }

  /** Nothing but white space: what a truth test after `strip` rejects. */
  predicate Blank(s: string) {
    forall i :: 0 <= i < |s| ==> IsSpace(s[i])
  }

  lemma {:induction false} BlankIsStrippedAway(s: string)
    ensures Blank(s) <==> Strip(s) == ""
    decreases |s|
  {
    if s == "" {
    } else if IsSpace(s[0]) {
      BlankIsStrippedAway(s[1..]);
      assert s == [s[0]] + s[1..];
    } else if IsSpace(s[|s| - 1]) {
      BlankIsStrippedAway(s[..|s| - 1]);
      assert s == s[..|s| - 1] + [s[|s| - 1]];
      assert s[..|s| - 1][0] == s[0];
    }
  }
}
