/** What the three capability modules share: the request each call sends,
    the response envelope `{success, data?, error?{code, errors?}}` it gets
    back, and the "<prefix><code> - Details: ..." error text that the file
    and iSCSI modules build from a failed envelope. */
module Transport {
  import opened Wrappers
  import opened Strings

  datatype Verb = Get | Post

  /** A request parameter before HTTP encoding: Python passes strings,
      integers and booleans, and `requests` renders each with `str`;
      `JsonArray(v)` is the text `json.dumps([v])`, kept structured so that
      what the backend decodes is plain to see. */
  datatype Param = Text(text: string) | Number(number: int) | Flag(flag: bool) | JsonArray(item: string)

  /** The text a string-valued parameter is sent as. */
  function EncodedText(p: Param): Option<string> {
    match p
    case Text(t) => Some(t)
    case JsonArray(v) => Some(JsonStringArray(v))
    case _ => None
  }

  /** One backend request: `api`, `version`, `method` and `_sid`, plus the
      call-specific parameters in the order the code passes them. */
  datatype Call = Call(
    verb: Verb,
    endpoint: string,
    api: string,
    version: string,
    apiMethod: string,
    sid: string,
    params: seq<(string, Param)>)

  /** One entry of `error.errors`. */
  datatype ItemError = ItemError(code: Option<string>, path: Option<string>)

  /** The `error` object of a failed envelope; a missing object is
      `ApiError(None, None)`, like Python's `data.get('error', {})`. */
  datatype ApiError = ApiError(code: Option<string>, errors: Option<seq<ItemError>>)

  /** What one request yields: a transport failure (`raise_for_status`, a
      connection error), an envelope with a true `success` flag and its
      `data`, or one without it. */
  datatype Reply<D> = NetworkFailure(reason: string) | Succeeded(data: D) | Rejected(error: ApiError)

  /** A single-request or fixed-sequence operation: its outcome and the
      requests it sent, in order. */
  datatype Run<T> = Run(result: Result<T, string>, sent: seq<Call>)

  /** `error.get('code', 'unknown')`. */
  function CodeText(code: Option<string>): string {
    code.GetOr("unknown")
  }

  /** "Code c[ for path: p]" for one item error. */
  function ItemDetail(e: ItemError): string {
    "Code " + CodeText(e.code) + (if e.path.Some? then " for path: " + e.path.value else "")
  }

  /** The `detailed_errors` list: one entry per item error, in order. */
  function ItemDetails(errors: seq<ItemError>): (r: seq<string>)
    ensures |r| == |errors|
    ensures forall i :: 0 <= i < |errors| ==> r[i] == ItemDetail(errors[i])
  {
    if errors == [] then [] else [ItemDetail(errors[0])] + ItemDetails(errors[1..])
  }

  /** The " - Details: ..." suffix, present only for a non-empty `errors`. */
  function DetailSuffix(errors: Option<seq<ItemError>>): string {
    if errors.Some? && |errors.value| > 0 then " - Details: " + Join(ItemDetails(errors.value), "; ") else ""
  }

  /** The text of the exception `_make_request` raises for a failed envelope. */
  function ApiErrorMessage(prefix: string, e: ApiError): string {
    prefix + CodeText(e.code) + DetailSuffix(e.errors)
  }

  /** `_make_request` of the file and iSCSI modules: the envelope's data, or
      the exception it raises. */
  function Answer<D>(prefix: string, r: Reply<D>): Result<D, string> {
    match r
    case NetworkFailure(reason) => Err(reason)
    case Succeeded(d) => Ok(d)
    case Rejected(e) => Err(ApiErrorMessage(prefix, e))
  }

  /** Without item errors the message is the prefix and the code alone;
      with them, the details list every item in order. */
  lemma ApiErrorMessageShape(prefix: string, e: ApiError)
    ensures (e.errors.None? || e.errors.value == []) ==> ApiErrorMessage(prefix, e) == prefix + CodeText(e.code)
    ensures e.errors.Some? && e.errors.value != [] ==>
      ApiErrorMessage(prefix, e)
        == prefix + CodeText(e.code) + " - Details: " + Join(ItemDetails(e.errors.value), "; ")
    ensures StartsWith(ApiErrorMessage(prefix, e), prefix + CodeText(e.code))
  {
    var m := ApiErrorMessage(prefix, e);
    assert m == (prefix + CodeText(e.code)) + DetailSuffix(e.errors);
  }

  /** One more item error adds "; " and that item's text at the end. */
  lemma DetailSuffixSnoc(errors: seq<ItemError>, e: ItemError)
    requires errors != []
    ensures DetailSuffix(Some(errors + [e])) == DetailSuffix(Some(errors)) + "; " + ItemDetail(e)
  {
    assert ItemDetails(errors + [e]) == ItemDetails(errors) + [ItemDetail(e)];
    JoinSnoc(ItemDetails(errors), ItemDetail(e), "; ");
  }

  /** The number of requests in `sent` whose API method is `apiMethod`. */
  function CountMethod(sent: seq<Call>, apiMethod: string): nat {
    if sent == [] then 0 else (if sent[0].apiMethod == apiMethod then 1 else 0) + CountMethod(sent[1..], apiMethod)
  }

  lemma {:induction false} CountMethodAppend(a: seq<Call>, b: seq<Call>, apiMethod: string)
    ensures CountMethod(a + b, apiMethod) == CountMethod(a, apiMethod) + CountMethod(b, apiMethod)
  {
    if a == [] {
      assert a + b == b;
    } else {
      assert (a + b)[1..] == a[1..] + b;
      CountMethodAppend(a[1..], b, apiMethod);
    }
  }

  /** A trace with no request of method `apiMethod` counts none. */
  lemma {:induction false} CountMethodNone(sent: seq<Call>, apiMethod: string)
    requires forall i :: 0 <= i < |sent| ==> sent[i].apiMethod != apiMethod
    ensures CountMethod(sent, apiMethod) == 0
  {
    if sent != [] {
      CountMethodNone(sent[1..], apiMethod);
    }
  }

  /** `n` copies of the same request: what a poll loop sends. */
  function Repeat(c: Call, n: nat): (r: seq<Call>)
    ensures |r| == n && forall i :: 0 <= i < n ==> r[i] == c
  {
    seq(n, _ => c)
  }

  lemma {:induction false} RepeatCount(c: Call, n: nat, apiMethod: string)
    ensures CountMethod(Repeat(c, n), apiMethod) == if c.apiMethod == apiMethod then n else 0
  {
    if n > 0 {
      assert Repeat(c, n)[1..] == Repeat(c, n - 1);
      RepeatCount(c, n - 1, apiMethod);
    }
  }
}
