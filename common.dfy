/** Vocabulary shared by the shot-selection rule chain: optional values,
    error results, the clamps the Python code uses, Python truthiness, a
    substring test, and the string labels the service exchanges. */
module Common {

  datatype Option<+T> = None | Some(value: T)

  datatype Result<+T, +E> = Ok(value: T) | Err(error: E)

  /** The one exception the rule chain can raise itself: an f-string that
      formats a missing (None) defender distance with `:.1f` (TypeError). */
  datatype FormatError = NoneFormatted

  /** Python's `min(a, b)`: the first argument unless the second is smaller. */
  function Min(a: real, b: real): (r: real)
    ensures r <= a && r <= b
    ensures r == a || r == b
  {
    if b < a then b else a
  }

  /** Python's `max(a, b)`. */
  function Max(a: real, b: real): (r: real)
    ensures r >= a && r >= b
    ensures r == a || r == b
  {
    if b > a then b else a
  }

  /** `np.clip(x, lo, hi)`, which is `min(max(x, lo), hi)`. */
  function Clip(x: real, lo: real, hi: real): (r: real)
    requires lo <= hi
    ensures lo <= r <= hi
    ensures lo <= x <= hi ==> r == x
    ensures x < lo ==> r == lo
    ensures hi < x ==> r == hi
  {
    Min(Max(x, lo), hi)
  }

  function Abs(x: real): (r: real)
    ensures r >= 0.0
    ensures r == x || r == -x
  {
    if x < 0.0 then -x else x
  }

  /** A list of at most one element: `[x]` when `c` holds, else `[]`. */
  function Opt<T>(c: bool, x: T): (r: seq<T>)
    ensures |r| <= 1
    ensures x in r <==> c
  {
    if c then [x] else []
  }

  /** Python truthiness of an optional string: present and non-empty. */
  predicate Truthy(s: Option<string>)
  {
    s.Some? && s.value != ""
  }

  /** Python truthiness of an optional float: present and non-zero. */
  predicate NonZero(d: Option<real>)
  {
    d.Some? && d.value != 0.0
  }

  predicate StartsWith(s: string, prefix: string)
  {
    |prefix| <= |s| && s[..|prefix|] == prefix
  }

  /** Python's substring test `sub in s`: `sub` occurs at some position. */
  predicate Contains(s: string, sub: string)
  {
    exists i | 0 <= i <= |s| - |sub| :: StartsWith(s[i..], sub)
  }

  /** A string that starts with `sub` contains it. */
  lemma ContainsPrefix(s: string, sub: string)
    requires StartsWith(s, sub)
    ensures Contains(s, sub)
  {
    assert s[0..] == s;
  }

  /** A string that does not hold the first character of `sub` does not
      contain `sub`. */
  lemma NotContainsWithoutFirstChar(s: string, sub: string)
    requires |sub| > 0 && sub[0] !in s
    ensures !Contains(s, sub)
  {
    forall i | 0 <= i <= |s| - |sub|
      ensures !StartsWith(s[i..], sub)
    {
      assert s[i..][0] == s[i];
    }
  }

  // Shot types
  const THREE_PT_FG: string := "3PT Field Goal"
  const TWO_PT_FG: string := "2PT Field Goal"

  // Court zones
  const RESTRICTED_AREA: string := "Restricted Area"
  const PAINT_NON_RA: string := "In The Paint (Non-RA)"
  const MID_RANGE: string := "Mid-Range"
  const ABOVE_THE_BREAK_3: string := "Above the Break 3"
  const LEFT_CORNER_3: string := "Left Corner 3"
  const RIGHT_CORNER_3: string := "Right Corner 3"
  const LEFT_SIDE_3: string := "Left Side 3"
  const RIGHT_SIDE_3: string := "Right Side 3"

  // Contest levels as sent by clients
  const TIGHT: string := "TIGHT"
  const CONTESTED: string := "CONTESTED"
  const OPEN: string := "OPEN"
  const WIDE_OPEN: string := "WIDE_OPEN"

  // Decisions
  const TAKE_SHOT: string := "TAKE SHOT"
  const PASS: string := "PASS"
}
