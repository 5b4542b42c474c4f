/** `friendlyAuthMessage`: turns an error raised by an API call into the
    sentence a toast shows.  The error's fields are modelled as the values
    the function inspects; absence, `null` and `undefined` are all `None`. */
module ErrorMessages {
  import opened Numbers

  /** One value of the `errors` object: an array of messages or a single
      value, shown through `String`. */
  datatype ErrorEntry = Many(messages: seq<string>) | One(text: string)

  /** What `err.data` holds: a parsed JSON object, or some other value such
      as a text body. */
  datatype Payload =
    | Object(status: Option<int>, errors: Option<seq<(string, ErrorEntry)>>, message: Option<string>)
    | Text(body: string)

  /** The fields of a thrown error the function looks at. */
  datatype ApiError = ApiError(isTypeError: bool, message: Option<string>, status: Option<int>, data: Option<Payload>)

  const Unexpected: string := "An unexpected error occurred. Please try again."
  const NetworkError: string := "Network error. Please check your connection and try again."
  const InvalidInput: string := "Invalid input. Please check the form fields."
  const NotAuthorized: string := "Invalid credentials or not authorized. Please check your email and password."
  const ServerError: string := "Server error. Please try again later."

  /** A number is truthy unless it is zero. */
  predicate TruthyNumber(n: Option<int>)
  {
    n.Some? && n.value != 0
  }

  /** A text is truthy unless it is empty. */
  predicate TruthyText(s: Option<string>)
  {
    s.Some? && s.value != ""
  }

  /** An object is always truthy; a text body only when it is not empty. */
  predicate TruthyPayload(p: Option<Payload>)
  {
    p.Some? && (p.value.Object? || p.value.body != "")
  }

  /** A `TypeError` whose message is exactly "Failed to fetch". */
  predicate FetchFailed(e: ApiError)
  {
    e.isTypeError && e.message == Some("Failed to fetch")
  }

  /** `err.status || err?.data?.status || null`. */
  function ResolvedStatus(e: ApiError): (s: Option<int>)
    ensures s.Some? ==> s.value != 0
    ensures TruthyNumber(e.status) ==> s == e.status
    ensures !TruthyNumber(e.status) && !(e.data.Some? && e.data.value.Object?) ==> s.None?
    // otherwise the payload's own status, if truthy
    ensures !TruthyNumber(e.status) && e.data.Some? && e.data.value.Object? ==>
              s == (if TruthyNumber(e.data.value.status) then e.data.value.status else None)
  {
    if TruthyNumber(e.status) then e.status
    else if e.data.Some? && e.data.value.Object? && TruthyNumber(e.data.value.status) then e.data.value.status
    else None
  }

  /** `err.data || null`. */
  function ResolvedData(e: ApiError): (d: Option<Payload>)
    ensures d.Some? <==> TruthyPayload(e.data)
    ensures d.Some? ==> d == e.data
  {
    if TruthyPayload(e.data) then e.data else None
  }

  /** The `errors` object of a 400 response, when there is one. */
  function ValidationErrors(e: ApiError): (errs: Option<seq<(string, ErrorEntry)>>)
    ensures errs.Some? ==> ResolvedStatus(e) == Some(400)
    ensures errs.Some? <==> ResolvedStatus(e) == Some(400) && e.data.Some? && e.data.value.Object? && e.data.value.errors.Some?
    ensures errs.Some? ==> errs == e.data.value.errors
  {
    var d := ResolvedData(e);
    if ResolvedStatus(e) == Some(400) && d.Some? && d.value.Object? then d.value.errors else None
  }

  /** The message of a payload object, when it is truthy. */
  function DataMessage(e: ApiError): (m: Option<string>)
    ensures m.Some? ==> m.value != ""
    ensures m.Some? <==> e.data.Some? && e.data.value.Object? && TruthyText(e.data.value.message)
    ensures m.Some? ==> m == e.data.value.message
  {
    var d := ResolvedData(e);
    if d.Some? && d.value.Object? && TruthyText(d.value.message) then d.value.message else None
  }

  /** The messages one entry contributes: the array's elements in order, or
      the single value. */
  function EntryMessages(v: ErrorEntry): (ms: seq<string>)
    ensures v.One? ==> ms == [v.text]
    ensures v.Many? ==> ms == v.messages
  {
    match v
    case Many(messages) => messages
    case One(text) => [text]
  }

  /** All messages of the entries, key by key in order. */
  function Flatten(entries: seq<(string, ErrorEntry)>): (ms: seq<string>)
    ensures entries == [] ==> ms == []
    // every collected message comes from some entry
    ensures forall m :: m in ms ==> exists k :: 0 <= k < |entries| && m in EntryMessages(entries[k].1)
  {
    if entries == [] then []
    else
      var n := |entries| - 1;
      assert forall k :: 0 <= k < n ==> entries[..n][k] == entries[k];
      Flatten(entries[..n]) + EntryMessages(entries[n].1)
  }

  /** Flattening keeps the order of the keys: the messages of earlier keys
      come first. */
  lemma {:induction false} FlattenAppend(a: seq<(string, ErrorEntry)>, b: seq<(string, ErrorEntry)>)
    ensures Flatten(a + b) == Flatten(a) + Flatten(b)
  {
    if b != [] {
      var last := b[|b| - 1];
      assert (a + b)[..|a + b| - 1] == a + b[..|b| - 1];
      FlattenAppend(a, b[..|b| - 1]);
    } else {
      assert a + b == a;
    }
  }

  /** Every message of every entry is among the flattened messages. */
  lemma {:induction false} FlattenKeepsAll(entries: seq<(string, ErrorEntry)>, k: nat, m: string)
    requires k < |entries| && m in EntryMessages(entries[k].1)
    ensures m in Flatten(entries)
  {
    var n := |entries|;
    if k < n - 1 {
      assert entries[..n - 1][k] == entries[k];
      FlattenKeepsAll(entries[..n - 1], k, m);
    }
  }

  /** The `for` loop over `Object.keys(data.errors)`: spreads an array,
      stringifies anything else. */
  method CollectMessages(errors: seq<(string, ErrorEntry)>) returns (msgs: seq<string>)
    ensures msgs == Flatten(errors)
  {
    msgs := [];
    var i := 0;
    while i < |errors|
      invariant 0 <= i <= |errors|
      invariant msgs == Flatten(errors[..i])
    {
      assert errors[..i + 1][..i] == errors[..i];
      match errors[i].1 {
        case Many(vs) => msgs := msgs + vs;
        case One(v) => msgs := msgs + [v];
      }
      i := i + 1;
    }
    assert errors[..i] == errors;
  }

  /** The summed lengths of some texts. */
  function TotalLength(parts: seq<string>): nat
  {
    if parts == [] then 0 else |parts[0]| + TotalLength(parts[1..])
  }

  /** `parts.join(sep)`. */
  function Join(parts: seq<string>, sep: string): (r: string)
    ensures parts == [] ==> r == ""
    ensures |parts| == 1 ==> r == parts[0]
    ensures |parts| >= 1 ==> |r| == TotalLength(parts) + (|parts| - 1) * |sep|
  {
    if parts == [] then ""
    else if |parts| == 1 then parts[0]
    else parts[0] + sep + Join(parts[1..], sep)
  }

  /** `friendlyAuthMessage`: the first rule that applies decides. */
  method FriendlyAuthMessage(err: Option<ApiError>) returns (m: string)
    ensures err.None? ==> m == Unexpected
    ensures err.Some? && FetchFailed(err.value) ==> m == NetworkError
    ensures err.Some? && !FetchFailed(err.value) && ValidationErrors(err.value).Some? ==>
              var msgs := Flatten(ValidationErrors(err.value).value);
              m == if msgs == [] then InvalidInput else Join(msgs, " ")
    ensures err.Some? && !FetchFailed(err.value) && ValidationErrors(err.value).None? ==>
              var e := err.value;
              var s := ResolvedStatus(e);
              if s == Some(401) || s == Some(403) then m == NotAuthorized
              else if s.Some? && s.value >= 500 then m == ServerError
              else if DataMessage(e).Some? then m == DataMessage(e).value
              else if TruthyText(e.message) then m == e.message.value
              else m == Unexpected
    // an empty toast only comes from a 400 whose one message is empty
    ensures m == "" ==> err.Some? && ValidationErrors(err.value).Some? &&
                        Flatten(ValidationErrors(err.value).value) == [""]
  {
    if err.None? {
      return Unexpected;
    }
    var e := err.value;
    if e.isTypeError && e.message == Some("Failed to fetch") {
      return NetworkError;
    }
    var status := ResolvedStatus(e);
    var data := ResolvedData(e);
    if status == Some(400) && data.Some? && data.value.Object? && data.value.errors.Some? {
      var msgs := CollectMessages(data.value.errors.value);
      if |msgs| > 0 {
        m := Join(msgs, " ");
      } else {
        m := InvalidInput;
      }
      return;
    }
    if status == Some(401) || status == Some(403) {
      return NotAuthorized;
    }
    if status.Some? && status.value >= 500 {
      return ServerError;
    }
    if data.Some? && data.value.Object? && data.value.message.Some? && data.value.message.value != "" {
      return data.value.message.value;
    }
    if e.message.Some? && e.message.value != "" {
      return e.message.value;
    }
    return Unexpected;
  }
}
