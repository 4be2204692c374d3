/** The status check of `post_object_to_url` in both revisions (identical in each). */
module Post {
  import opened Wrappers
  import opened Decimal

  /** What the target returned for one POST: its status code and body text. */
  datatype Response = Response(status: int, body: string)

  /** `(True, None)` or `(False, error)`. */
  datatype PostResult = Accepted | Rejected(error: string)

  /** `f"{resp.status_code}: {resp.text}"`. */
  function ErrorText(status: int, body: string): string {
    DecimalString(status) + ": " + body
  }

  function ClassifyPost(resp: Response): (r: PostResult)
    ensures r.Accepted? <==> resp.status == 200 || resp.status == 201
    ensures r.Rejected? ==> r.error == ErrorText(resp.status, resp.body)
  {
    if resp.status in [200, 201] then Accepted else Rejected(ErrorText(resp.status, resp.body))
  }

  /** The position of the first ':' in `s`, or `|s|` when there is none. */
  function ColonIndex(s: string): (i: nat)
    ensures i <= |s|
    ensures i < |s| ==> s[i] == ':'
    ensures forall j | 0 <= j < i :: s[j] != ':'
    decreases |s|
  {
    if s == [] then 0 else if s[0] == ':' then 0 else 1 + ColonIndex(s[1..])
  }

  /** Splits a failure text at its first ": " into the status code and the body. */
  function ParseErrorText(t: string): Option<(int, string)> {
    var i := ColonIndex(t);
    if i + 2 <= |t| && t[i..i + 2] == ": " then
      match ParseDecimal(t[..i])
      case Some(code) => Some((code, t[i + 2..]))
      case None => None
    else
      None
  }

  /** A failure text always holds the exact status code and body it was made from. */
  lemma ErrorTextRoundTrip(status: int, body: string)
    ensures ParseErrorText(ErrorText(status, body)) == Some((status, body))
  {
    var d := DecimalString(status);
    var t := ErrorText(status, body);
    assert t[|d|] == ':';
    assert forall j | 0 <= j < |d| :: t[j] == d[j] && d[j] != ':' by {
      forall j | 0 <= j < |d| ensures d[j] != ':' {
        if status < 0 && j > 0 {
          assert d[1..][j - 1] == d[j];
        }
      }
    }
    assert ColonIndex(t) == |d|;
    assert t[..|d|] == d;
    assert t[|d| + 2..] == body;
    DecimalRoundTrip(status);
  }
}
