/**
 * The HTTP access layer (`ApiService`): request URLs, query parameters, multipart forms,
 * unwrapping of `{ data: ... }` envelopes, and the translation of every failure into one
 * fault record.  `HttpClient` itself is not modelled: the server's answer is an input
 * (`HttpResult`) and the observable's outcome is the result (`Outcome`).
 */
module Api {
  import opened Wrappers
  import opened Text
  import opened JsValue

  const DefaultBaseUrl := "https://localhost:7250/api"

  /** `HttpErrorResponse.error`: a client-side `ErrorEvent` or the parsed response body. */
  datatype ErrorBody = ErrorEvent(eventMessage: Value) | Body(body: Value)

  /** An `HttpErrorResponse`. */
  datatype HttpFailure = HttpFailure(status: int, statusText: string, url: Option<string>,
                                     message: string, error: ErrorBody)

  /**
   * What reaches `catchError`: an `HttpErrorResponse`, or the `TypeError` thrown by an
   * unwrapping `map` that read `.data` of a `null` body.
   */
  datatype Thrown = HttpError(failure: HttpFailure) | TypeError(typeMessage: string)

  /**
   * The `Error` that `handleError` throws: its message plus the copied `status`,
   * `statusText`, `url` and `error` (None / Undefined where the thrown value had none).
   */
  datatype Fault = Fault(message: string, status: Option<int>, statusText: Option<string>,
                         url: Value, error: ErrorBody)

  /** What the server sent back: a body, or an HTTP failure. */
  datatype HttpResult = Response(body: Value) | Failed(failure: HttpFailure)

  /** What the returned observable delivers: one value, or one fault. */
  datatype Outcome<T> = Ok(value: T) | Err(fault: Fault)

  /**
   * `forkJoin` of two requests: both values when both succeed, otherwise a failure of one
   * of them.  Which failure arrives first in time is not modelled; the earlier-listed is used.
   */
  function Both<A, B>(a: Outcome<A>, b: Outcome<B>): (r: Outcome<(A, B)>)
    ensures r.Ok? <==> a.Ok? && b.Ok?
    ensures r.Ok? ==> r.value == (a.value, b.value)
    ensures r.Err? ==> (a.Err? && r.fault == a.fault) || (b.Err? && r.fault == b.fault)
  {
    if a.Err? then Err(a.fault)
    else if b.Err? then Err(b.fault)
    else Ok((a.value, b.value))
  }

  /** `${baseUrl}/${endpoint}`. */
  function RequestUrl(baseUrl: string, endpoint: string): (r: string)
    ensures |r| == |baseUrl| + 1 + |endpoint|
    ensures r[..|baseUrl|] == baseUrl && r[|baseUrl|] == '/' && r[|baseUrl| + 1..] == endpoint
  {
    baseUrl + "/" + endpoint
  }

  // ---------------------------------------------------------------------------------------
  // Error translation

  const ConnectionPrefix := "Unable to connect to the server at "
  const ConnectionAdvice := ". \n      \nPlease check:\n"
    + "1. Is the API server running on http://localhost:5179?\n"
    + "2. Is CORS configured on the backend to allow requests from http://localhost:4200?\n"
    + "3. Check the browser console Network tab for more details."

  /** The status-0 message, which names the base URL the service was using. */
  function ConnectionMessage(baseUrl: string): string {
    ConnectionPrefix + baseUrl + ConnectionAdvice
  }

  /** `Error Code: ${error.status} - ${error.message}`. */
  function CodeMessage(status: string, message: string): string {
    "Error Code: " + status + " - " + message
  }

  /** The message `handleError` picks, first match wins. */
  function ErrorMessage(baseUrl: string, thrown: Thrown): (r: string)
    ensures thrown.TypeError? ==> r == CodeMessage("undefined", thrown.typeMessage)
    ensures thrown.HttpError? && thrown.failure.status == 0 ==> r == ConnectionMessage(baseUrl)
    ensures thrown.HttpError? && thrown.failure.status != 0 && thrown.failure.error.Body?
            && !Truthy(thrown.failure.error.body) ==>
              r == CodeMessage(IntToString(thrown.failure.status), thrown.failure.message)
  {
    match thrown
    case TypeError(m) => CodeMessage("undefined", m)
    case HttpError(f) =>
      if f.status == 0 then ConnectionMessage(baseUrl)
      else
        match f.error
        case ErrorEvent(m) => "Error: " + ToStr(m)
        case Body(b) =>
          if !Truthy(b) then CodeMessage(IntToString(f.status), f.message)
          else if b.Str? then b.s
          else if Truthy(Get(b, "message")) then ToStr(Get(b, "message"))
          else if Truthy(Get(b, "error")) then ToStr(Get(b, "error"))
          else CodeMessage(IntToString(f.status), f.message)
  }

  /** `handleError`: one fault for every failure, carrying the failure's own details. */
  function HandleError(baseUrl: string, thrown: Thrown): (r: Fault)
    ensures r.message == ErrorMessage(baseUrl, thrown)
    ensures thrown.HttpError? ==>
              r.status == Some(thrown.failure.status)
              && r.statusText == Some(thrown.failure.statusText)
              && r.url == (if thrown.failure.url.Some? then Str(thrown.failure.url.value) else Null)
              && r.error == thrown.failure.error
    ensures thrown.TypeError? ==>
              r.status == None && r.statusText == None && r.url == Undefined && r.error == Body(Undefined)
  {
    match thrown
    case TypeError(_) => Fault(ErrorMessage(baseUrl, thrown), None, None, Undefined, Body(Undefined))
    case HttpError(f) =>
      Fault(ErrorMessage(baseUrl, thrown), Some(f.status), Some(f.statusText),
            if f.url.Some? then Str(f.url.value) else Null, f.error)
  }

  /** The order in which `handleError` looks for a message, case by case. */
  lemma ErrorMessageOrder(baseUrl: string, f: HttpFailure)
    ensures f.status == 0 ==> ErrorMessage(baseUrl, HttpError(f)) == ConnectionMessage(baseUrl)
    ensures f.status != 0 && f.error.ErrorEvent? ==>
              ErrorMessage(baseUrl, HttpError(f)) == "Error: " + ToStr(f.error.eventMessage)
    ensures f.status != 0 && f.error.Body? && f.error.body.Str? && f.error.body.s != "" ==>
              ErrorMessage(baseUrl, HttpError(f)) == f.error.body.s
    ensures f.status != 0 && f.error.Body? && f.error.body.Obj? && Truthy(Get(f.error.body, "message")) ==>
              ErrorMessage(baseUrl, HttpError(f)) == ToStr(Get(f.error.body, "message"))
    ensures f.status != 0 && f.error.Body? && f.error.body.Obj? && !Truthy(Get(f.error.body, "message"))
              && Truthy(Get(f.error.body, "error")) ==>
              ErrorMessage(baseUrl, HttpError(f)) == ToStr(Get(f.error.body, "error"))
    ensures f.status != 0 && f.error.Body? && !Truthy(Get(f.error.body, "message"))
              && !Truthy(Get(f.error.body, "error")) && !(f.error.body.Str? && f.error.body.s != "") ==>
              ErrorMessage(baseUrl, HttpError(f)) == CodeMessage(IntToString(f.status), f.message)
  {
  }

  /** A connection failure's message tells the user which base URL could not be reached. */
  lemma ConnectionMessageNamesBaseUrl(baseUrl: string, f: HttpFailure)
    requires f.status == 0
    ensures Contains(HandleError(baseUrl, HttpError(f)).message, baseUrl)
  {
    ContainsInfix(ConnectionPrefix, baseUrl, ConnectionAdvice);
  }

  // ---------------------------------------------------------------------------------------
  // Unwrapping

  /** The `map` step of `get`: an object with a `data` key yields `data || response`. */
  function UnwrapGet(response: Value): (r: Value)
    ensures !(response.Obj? && "data" in response.fields) ==> r == response
    ensures response.Obj? && "data" in response.fields ==>
              r == (if Truthy(response.fields["data"]) then response.fields["data"] else response)
  {
    if Truthy(response) && IsObject(response) && response.Obj? && "data" in response.fields then
      Or(response.fields["data"], response)
    else response
  }

  /**
   * The `map` step of `post`, `put`, `patch`, `delete` and `uploadFile`: `response.data ||
   * response`, which throws (None) when the body is `null` or `undefined`.
   */
  function UnwrapBody(response: Value): (r: Option<Value>)
    ensures r.None? <==> IsNullish(response)
  {
    if IsNullish(response) then None else Some(Or(Get(response, "data"), response))
  }

  /** The `TypeError` the unwrapping step throws on a nullish body. */
  function NullBodyError(response: Value): Thrown {
    TypeError("Cannot read properties of " + (if response.Null? then "null" else "undefined")
              + " (reading 'data')")
  }

  /**
   * The two unwrapping rules agree on every body except a nullish one, which `get` passes
   * on and the others turn into a fault.
   */
  lemma UnwrapRulesAgree(response: Value)
    ensures !IsNullish(response) ==> UnwrapBody(response) == Some(UnwrapGet(response))
    ensures IsNullish(response) ==> UnwrapGet(response) == response
  {
  }

  /** What the observable of `get` delivers. */
  function GetOutcome(baseUrl: string, result: HttpResult): (r: Outcome<Value>)
    ensures result.Response? ==> r == Ok(UnwrapGet(result.body))
    ensures result.Failed? ==> r == Err(HandleError(baseUrl, HttpError(result.failure)))
  {
    match result
    case Response(body) => Ok(UnwrapGet(body))
    case Failed(f) => Err(HandleError(baseUrl, HttpError(f)))
  }

  /** What the observable of `post`, `put`, `patch`, `delete` and `uploadFile` delivers. */
  function BodyOutcome(baseUrl: string, result: HttpResult): (r: Outcome<Value>)
    ensures result.Response? && !IsNullish(result.body) ==> r == Ok(Or(Get(result.body, "data"), result.body))
    ensures result.Response? && IsNullish(result.body) ==>
              r.Err? && r.fault.status.None? && r.fault.error == Body(Undefined)
    ensures result.Failed? ==> r == Err(HandleError(baseUrl, HttpError(result.failure)))
  {
    match result
    case Response(body) =>
      (match UnwrapBody(body)
       case Some(v) => Ok(v)
       case None => Err(HandleError(baseUrl, NullBodyError(body))))
    case Failed(f) => Err(HandleError(baseUrl, HttpError(f)))
  }

  /** What `downloadFile` delivers: the body as it came, or the translated failure. */
  function DownloadOutcome(baseUrl: string, result: HttpResult): (r: Outcome<Value>)
    ensures result.Response? ==> r == Ok(result.body)
    ensures result.Failed? ==> r == GetOutcome(baseUrl, result)
  {
    match result
    case Response(body) => Ok(body)
    case Failed(f) => Err(HandleError(baseUrl, HttpError(f)))
  }

  /** A download keeps an envelope that every other call would have unwrapped. */
  lemma DownloadKeepsEnvelope(baseUrl: string, body: Value)
    requires body.Obj? && "data" in body.fields && Truthy(body.fields["data"]) && body.fields["data"] != body
    ensures DownloadOutcome(baseUrl, Response(body)) != GetOutcome(baseUrl, Response(body))
    ensures DownloadOutcome(baseUrl, Response(body)) != BodyOutcome(baseUrl, Response(body))
  {
  }

  // ---------------------------------------------------------------------------------------
  // Query parameters

  /** `HttpParams`: keys in first-insertion order, each with its list of values. */
  type Params = seq<(string, seq<string>)>

  /** `params.getAll(key)`, or the empty list when the key is absent. */
  function Values(p: Params, key: string): seq<string> {
    if p == [] then [] else if p[0].0 == key then p[0].1 else Values(p[1..], key)
  }

  /** `params.set(key, value)`: the key's values become `[value]`. */
  function SetParam(p: Params, key: string, value: string): (r: Params)
    ensures Values(r, key) == [value]
    ensures forall other :: other != key ==> Values(r, other) == Values(p, other)
  {
    if p == [] then [(key, [value])]
    else if p[0].0 == key then [(key, [value])] + p[1..]
    else [p[0]] + SetParam(p[1..], key, value)
  }

  /** `params.append(key, value)`: `value` is added after the key's existing values. */
  function AppendParam(p: Params, key: string, value: string): (r: Params)
    ensures Values(r, key) == Values(p, key) + [value]
    ensures forall other :: other != key ==> Values(r, other) == Values(p, other)
  {
    if p == [] then [(key, [value])]
    else if p[0].0 == key then [(key, p[0].1 + [value])] + p[1..]
    else [p[0]] + AppendParam(p[1..], key, value)
  }

  /**
   * `items.forEach(v => params = params.append(key, v.toString()))`; None when an item is
   * `null` or `undefined`, whose `toString` throws.
   */
  function AppendAll(p: Params, key: string, items: seq<Value>): Option<Params> {
    if items == [] then Some(p)
    else
      match AppendAll(p, key, items[..|items| - 1])
      case None => None
      case Some(q) =>
        var last := items[|items| - 1];
        if IsNullish(last) then None else Some(AppendParam(q, key, ToStr(last)))
  }

  /** One step of `buildHttpParams`: skip nullish values, expand arrays, set scalars. */
  function AddField(p: Params, key: string, v: Value): Option<Params> {
    if IsNullish(v) then Some(p)
    else if v.Arr? then AppendAll(p, key, v.items)
    else Some(SetParam(p, key, ToStr(v)))
  }

  /** `buildHttpParams` over an object's properties in `Object.keys` order. */
  function ParamsOf(fields: seq<(string, Value)>): Option<Params> {
    if fields == [] then Some([])
    else
      match ParamsOf(fields[..|fields| - 1])
      case None => None
      case Some(p) => AddField(p, fields[|fields| - 1].0, fields[|fields| - 1].1)
  }

  /** `buildHttpParams(params)`; None in (no params) gives the empty parameter set. */
  function HttpParamsOf(params: Option<seq<(string, Value)>>): Option<Params> {
    match params
    case None => Some([])
    case Some(fields) => ParamsOf(fields)
  }

  /** The values one property contributes. */
  function FieldText(v: Value): seq<string> {
    if IsNullish(v) then []
    else if v.Arr? then seq(|v.items|, j requires 0 <= j < |v.items| => ToStr(v.items[j]))
    else [ToStr(v)]
  }

  predicate HasNullishItem(v: Value) {
    v.Arr? && exists j :: 0 <= j < |v.items| && IsNullish(v.items[j])
  }

  predicate DistinctKeys(fields: seq<(string, Value)>) {
    forall i, j :: 0 <= i < j < |fields| ==> fields[i].0 != fields[j].0
  }

  /** Runs `buildHttpParams`; None is the `TypeError` of a nullish array element. */
  method BuildHttpParams(params: Option<seq<(string, Value)>>) returns (r: Option<Params>)
    ensures r == HttpParamsOf(params)
  {
    if params.None? {
      return Some([]);
    }
    var fields := params.value;
    var acc: Params := [];
    var i := 0;
    while i < |fields|
      invariant 0 <= i <= |fields|
      invariant ParamsOf(fields[..i]) == Some(acc)
    {
      var key := fields[i].0;
      var v := fields[i].1;
      assert fields[..i + 1][..i] == fields[..i];
      if !IsNullish(v) {
        if v.Arr? {
          var start := acc;
          var j := 0;
          while j < |v.items|
            invariant 0 <= j <= |v.items|
            invariant AppendAll(start, key, v.items[..j]) == Some(acc)
          {
            assert v.items[..j + 1][..j] == v.items[..j];
            if IsNullish(v.items[j]) {
              AppendAllStaysFailed(start, key, v.items, j + 1);
              ParamsStayFailed(fields, i + 1);
              return None;
            }
            acc := AppendParam(acc, key, ToStr(v.items[j]));
            j := j + 1;
          }
          assert v.items[..j] == v.items;
        } else {
          acc := SetParam(acc, key, ToStr(v));
        }
      }
      i := i + 1;
    }
    assert fields[..i] == fields;
    return Some(acc);
  }

  lemma {:induction false} AppendAllStaysFailed(p: Params, key: string, items: seq<Value>, n: nat)
    requires n <= |items| && AppendAll(p, key, items[..n]).None?
    ensures AppendAll(p, key, items).None?
    decreases |items| - n
  {
    if n < |items| {
      assert items[..n + 1][..n] == items[..n];
      AppendAllStaysFailed(p, key, items, n + 1);
    } else {
      assert items[..n] == items;
    }
  }

  lemma {:induction false} ParamsStayFailed(fields: seq<(string, Value)>, n: nat)
    requires n <= |fields| && ParamsOf(fields[..n]).None?
    ensures ParamsOf(fields).None?
    decreases |fields| - n
  {
    if n < |fields| {
      assert fields[..n + 1][..n] == fields[..n];
      ParamsStayFailed(fields, n + 1);
    } else {
      assert fields[..n] == fields;
    }
  }

  lemma {:induction false} AppendAllValues(p: Params, key: string, items: seq<Value>)
    requires forall j :: 0 <= j < |items| ==> !IsNullish(items[j])
    ensures AppendAll(p, key, items).Some?
    ensures Values(AppendAll(p, key, items).value, key)
            == Values(p, key) + seq(|items|, j requires 0 <= j < |items| => ToStr(items[j]))
    ensures forall other :: other != key ==> Values(AppendAll(p, key, items).value, other) == Values(p, other)
  {
    if items != [] {
      var init := items[..|items| - 1];
      AppendAllValues(p, key, init);
      var texts := seq(|items|, j requires 0 <= j < |items| => ToStr(items[j]));
      var initTexts := seq(|init|, j requires 0 <= j < |init| => ToStr(init[j]));
      assert texts == initTexts + [ToStr(items[|items| - 1])];
    }
  }

  lemma {:induction false} AppendAllFails(p: Params, key: string, items: seq<Value>)
    requires exists j :: 0 <= j < |items| && IsNullish(items[j])
    ensures AppendAll(p, key, items).None?
  {
    var j :| 0 <= j < |items| && IsNullish(items[j]);
    if j == |items| - 1 {
      if AppendAll(p, key, items[..|items| - 1]).Some? {
        assert IsNullish(items[|items| - 1]);
      }
    } else {
      assert items[..|items| - 1][j] == items[j];
      AppendAllFails(p, key, items[..|items| - 1]);
    }
  }

  /**
   * `buildHttpParams` throws exactly when some property is an array holding `null` or
   * `undefined`.
   */
  lemma {:induction false} ParamsFailIff(fields: seq<(string, Value)>)
    ensures ParamsOf(fields).None? <==> exists i :: 0 <= i < |fields| && HasNullishItem(fields[i].1)
  {
    if fields != [] {
      var init := fields[..|fields| - 1];
      var last := fields[|fields| - 1];
      ParamsFailIff(init);
      assert forall i :: 0 <= i < |init| ==> init[i] == fields[i];
      if ParamsOf(init).Some? {
        var p := ParamsOf(init).value;
        if HasNullishItem(last.1) {
          AppendAllFails(p, last.0, last.1.items);
        } else if last.1.Arr? {
          AppendAllValues(p, last.0, last.1.items);
        }
      } else {
        var i :| 0 <= i < |init| && HasNullishItem(init[i].1);
        assert HasNullishItem(fields[i].1);
      }
    }
  }

  /** A key no property has gets no values. */
  lemma {:induction false} ParamsAbsent(fields: seq<(string, Value)>, key: string)
    requires ParamsOf(fields).Some?
    requires forall i :: 0 <= i < |fields| ==> fields[i].0 != key
    ensures Values(ParamsOf(fields).value, key) == []
  {
    if fields != [] {
      var init := fields[..|fields| - 1];
      var last := fields[|fields| - 1];
      assert forall i :: 0 <= i < |init| ==> init[i] == fields[i];
      ParamsAbsent(init, key);
      var p := ParamsOf(init).value;
      if !IsNullish(last.1) && last.1.Arr? {
        ParamsFailIff(fields);
        assert !HasNullishItem(fields[|fields| - 1].1);
        AppendAllValues(p, last.0, last.1.items);
      }
    }
  }

  /**
   * With distinct keys (as an object has), each key's values are exactly what its own
   * property contributes: none for `null`/`undefined`, one per element for an array, in
   * order, and the `toString` of anything else.
   */
  lemma {:induction false} ParamsLookup(fields: seq<(string, Value)>, i: nat)
    requires DistinctKeys(fields) && ParamsOf(fields).Some? && i < |fields|
    ensures Values(ParamsOf(fields).value, fields[i].0) == FieldText(fields[i].1)
  {
    var init := fields[..|fields| - 1];
    var last := fields[|fields| - 1];
    assert forall k :: 0 <= k < |init| ==> init[k] == fields[k];
    ParamsFailIff(fields);
    var p := ParamsOf(init).value;
    if i == |fields| - 1 {
      ParamsAbsent(init, last.0);
      if !IsNullish(last.1) && last.1.Arr? {
        assert !HasNullishItem(fields[|fields| - 1].1);
        AppendAllValues(p, last.0, last.1.items);
      }
    } else {
      ParamsLookup(init, i);
      if !IsNullish(last.1) && last.1.Arr? {
        assert !HasNullishItem(fields[|fields| - 1].1);
        AppendAllValues(p, last.0, last.1.items);
      }
    }
  }

  // ---------------------------------------------------------------------------------------
  // Multipart upload

  /** A `File` handed to `uploadFile`, identified by its name. */
  datatype FileRef = FileRef(name: string)

  /** `uploadFile`'s `file` argument: one `File`, or an array of them. */
  datatype Upload = OneFile(file: FileRef) | FileList(files: seq<FileRef>)

  /** A `FormData` entry: a file, or a value converted to text by `append`. */
  datatype FormEntry = FilePart(key: string, file: FileRef) | TextPart(key: string, text: string)

  function FileKey(index: nat): string {
    "files[" + IntToString(index) + "]"
  }

  function FileCount(upload: Upload): nat {
    if upload.OneFile? then 1 else |upload.files|
  }

  /** Two list positions never share a form key. */
  lemma FileKeysDistinct(i: nat, j: nat)
    requires FileKey(i) == FileKey(j)
    ensures i == j
  {
    var a := FileKey(i);
    assert NatToString(i) == a[6..|a| - 1];
    assert NatToString(j) == a[6..|a| - 1];
    NatToStringValue(i);
    NatToStringValue(j);
  }

  /** The file entries of `uploadFile`: `file` alone, or `files[i]` for each array item. */
  method FileParts(upload: Upload) returns (parts: seq<FormEntry>)
    ensures |parts| == FileCount(upload)
    ensures upload.OneFile? ==> parts == [FilePart("file", upload.file)]
    ensures upload.FileList? ==>
              forall i :: 0 <= i < |upload.files| ==> parts[i] == FilePart(FileKey(i), upload.files[i])
  {
    match upload {
      case OneFile(f) =>
        parts := [FilePart("file", f)];
      case FileList(files) =>
        parts := [];
        var i := 0;
        while i < |files|
          invariant 0 <= i <= |files| && |parts| == i
          invariant forall k :: 0 <= k < i ==> parts[k] == FilePart(FileKey(k), files[k])
        {
          parts := parts + [FilePart(FileKey(i), files[i])];
          i := i + 1;
        }
    }
  }

  /** The additional entries of `uploadFile`: each property under its own key, as text. */
  method TextParts(fields: seq<(string, Value)>) returns (parts: seq<FormEntry>)
    ensures |parts| == |fields|
    ensures forall j :: 0 <= j < |fields| ==> parts[j] == TextPart(fields[j].0, ToStr(fields[j].1))
  {
    parts := [];
    var j := 0;
    while j < |fields|
      invariant 0 <= j <= |fields| && |parts| == j
      invariant forall k :: 0 <= k < j ==> parts[k] == TextPart(fields[k].0, ToStr(fields[k].1))
    {
      parts := parts + [TextPart(fields[j].0, ToStr(fields[j].1))];
      j := j + 1;
    }
  }

  /**
   * The `FormData` of `uploadFile`: the file under `file`, or each array item under
   * `files[i]` in order, followed by each additional property under its own key.
   */
  method BuildUploadForm(upload: Upload, extra: Option<seq<(string, Value)>>) returns (form: seq<FormEntry>)
    ensures var extras := if extra.Some? then extra.value else [];
            |form| == FileCount(upload) + |extras|
            && (upload.OneFile? ==> form[0] == FilePart("file", upload.file))
            && (upload.FileList? ==>
                  forall i :: 0 <= i < |upload.files| ==> form[i] == FilePart(FileKey(i), upload.files[i]))
            && (forall j :: 0 <= j < |extras| ==>
                  form[FileCount(upload)..][j] == TextPart(extras[j].0, ToStr(extras[j].1)))
  {
    var files := FileParts(upload);
    var extras := if extra.Some? then extra.value else [];
    var texts := TextParts(extras);
    form := files + texts;
    assert form[..|files|] == files;
    assert form[|files|..] == texts;
  }

  // ---------------------------------------------------------------------------------------

  /** The service object; its one piece of state is the base URL. */
  class ApiService {
    var baseUrl: string

    constructor()
      ensures baseUrl == DefaultBaseUrl
    {
      baseUrl := DefaultBaseUrl;
    }

    method SetBaseUrl(url: string)
      modifies this
      ensures GetBaseUrl() == url
    {
      baseUrl := url;
    }

    function GetBaseUrl(): (r: string)
      reads this
      ensures r == baseUrl
    {
      baseUrl
    }
  }
}
