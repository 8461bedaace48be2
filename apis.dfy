/** The client-side API access layer (vue/src/utils/apis.ts).

    The six list/get/post/put/patch/delete calls send one request each and
    settle it into an `ApiDataResult`; the session check and the timer reset
    run only when the request resolved. The two cached lookups send a request
    only on a miss and return the bare data (a list, or a text, `null` or
    `undefined`). The download settles into a `DownloadResult`, and a
    transport error there is a rejection. What is outside the layer is abstracted: the HTTP outcome of a request
    is an input (`Outcome`), and the router, the shared store's `timer`
    mutation, the toast plugin and the file download are appended to an
    event log. The browser key/value store is a map. */
module Apis {
  import opened JsValues
  import opened Strings

  // ---------------------------------------------------------------------
  // Data model

  /** The shape every call resolves to. */
  datatype ApiDataResult<T> = ApiDataResult(
    code: string,
    data: Option<T>,
    message: string,
    paginationTotalLength: Option<int>)

  /** `string | number | requestKey`: a plain id or a 1-3 part composite key.
      `key2` is declared required, but is only appended when truthy, so an
      absent `key2` (None) behaves as a falsy one. */
  datatype RequestKey =
    | Plain(value: Scalar)
    | Composite(key: Scalar, key2: Option<Scalar>, key3: Option<string>)

  /** The JSON body of an error response, as far as the layer reads it. */
  datatype ErrorBody = ErrorBody(code: string, message: Option<string>)
  datatype ErrorResponse = ErrorResponse(data: Option<ErrorBody>)
  /** A rejected request: the transport's own message and, when the server
      answered, its response. */
  datatype AxiosError = AxiosError(message: string, response: Option<ErrorResponse>)

  /** What the HTTP client did with a request: resolved with a body, or rejected. */
  datatype Outcome<T> = Responded(body: ApiDataResult<T>) | Failed(error: AxiosError)

  datatype SelectItem = SelectItem(text: string, value: string)

  /** Values kept in the browser key/value store. */
  datatype Stored = CodeItems(items: seq<SelectItem>) | Text(text: string)

  /** `string | null`, plus the `undefined` that getVariableApi can also return. */
  datatype Nullable = Null | Undefined | Value(text: string)

  datatype Verb = Get | Post | Put | Patch | Delete

  /** Effects on collaborators outside the layer, in the order they happen. */
  datatype Event =
    | Request(verb: Verb, url: string)
    | DownloadRequest(baseUrl: string, url: string, authorization: Option<Stored>)
    | Navigate(path: string)
    | TimerReset
    | ToastSuccess(message: string)
    | ToastError(message: string)
    | SaveFile(fileName: string)

  const FallbackCode: string := "F000"
  const SessionInvalidCodes: seq<string> := ["F004", "F011"]
  const LoginRoute: string := "/login?need=login"
  const ErrorRoute: string := "/Code500"
  const DefaultApiHost: string := "http://localhost:8080/"
  const AccessTokenKey: string := "accessToken"

  // ---------------------------------------------------------------------
  // Counting events in a log

  function Occurrences(log: seq<Event>, e: Event): nat
    decreases |log|
  {
    if log == [] then 0 else (if log[0] == e then 1 else 0) + Occurrences(log[1..], e)
  }

  predicate IsToast(e: Event) {
    e.ToastSuccess? || e.ToastError?
  }

  function ToastCount(log: seq<Event>): nat
    decreases |log|
  {
    if log == [] then 0 else (if IsToast(log[0]) then 1 else 0) + ToastCount(log[1..])
  }

  lemma {:induction false} OccurrencesAppend(a: seq<Event>, b: seq<Event>, e: Event)
    ensures Occurrences(a + b, e) == Occurrences(a, e) + Occurrences(b, e)
    decreases |a|
  {
    if a == [] {
      assert a + b == b;
    } else {
      assert (a + b)[1..] == a[1..] + b;
      OccurrencesAppend(a[1..], b, e);
    }
  }

  lemma {:induction false} ToastCountAppend(a: seq<Event>, b: seq<Event>)
    ensures ToastCount(a + b) == ToastCount(a) + ToastCount(b)
    decreases |a|
  {
    if a == [] {
      assert a + b == b;
    } else {
      assert (a + b)[1..] == a[1..] + b;
      ToastCountAppend(a[1..], b);
    }
  }

  // ---------------------------------------------------------------------
  // getErrorResult

  /** Does the rejected request carry a response body with a truthy message? */
  predicate HasServerMessage(e: AxiosError) {
    && e.response.Some?
    && e.response.value.data.Some?
    && e.response.value.data.value.message.Some?
    && e.response.value.data.value.message.value != ""
  }

  /** The normalised result of a rejected request: the server's code and
      message when its body has a message, otherwise F000 with the
      transport's message. */
  function ErrorResult<T>(e: AxiosError): (r: ApiDataResult<T>)
    ensures HasServerMessage(e) ==>
      var body := e.response.value.data.value;
      r.code == body.code && r.message == body.message.value
    ensures !HasServerMessage(e) ==> r.code == FallbackCode && r.message == e.message
    ensures r.data == None && r.paginationTotalLength == None
  {
    if HasServerMessage(e) then
      var body := e.response.value.data.value;
      ApiDataResult(body.code, None, body.message.value, None)
    else
      ApiDataResult(FallbackCode, None, e.message, None)
  }

  /** The debugging redirect getErrorResult makes outside production. */
  function ErrorEvents(production: bool): seq<Event> {
    if production then [] else [Navigate(ErrorRoute)]
  }

  // ---------------------------------------------------------------------
  // logoutChecker and alertResponseMessage

  predicate IsSessionInvalid(code: string) {
    code in SessionInvalidCodes
  }

  /** lodash `startsWith(code, 'S')`. */
  predicate IsSuccessCode(code: string) {
    |code| > 0 && code[0] == 'S'
  }

  function LogoutEvents(code: string): seq<Event> {
    (if IsSessionInvalid(code) then [Navigate(LoginRoute)] else []) + [TimerReset]
  }

  function AlertEvents<T>(r: ApiDataResult<T>): seq<Event> {
    if IsSuccessCode(r.code) then [ToastSuccess(r.message)] else [ToastError(r.message)]
  }

  /** logoutChecker navigates to the login route exactly for F004 and F011,
      and resets the timer exactly once whatever the code; it shows no toast. */
  lemma LogoutCheckerEffects(code: string)
    ensures Occurrences(LogoutEvents(code), Navigate(LoginRoute)) == 1 <==> code == "F004" || code == "F011"
    ensures Occurrences(LogoutEvents(code), Navigate(LoginRoute)) <= 1
    ensures Occurrences(LogoutEvents(code), TimerReset) == 1
    ensures ToastCount(LogoutEvents(code)) == 0
  {
    var nav := if IsSessionInvalid(code) then [Navigate(LoginRoute)] else [];
    OccurrencesAppend(nav, [TimerReset], Navigate(LoginRoute));
    OccurrencesAppend(nav, [TimerReset], TimerReset);
    ToastCountAppend(nav, [TimerReset]);
  }

  /** alertResponseMessage fires exactly one toast carrying the message:
      a success toast exactly when the code starts with 'S'. */
  lemma AlertFiresOneToast<T>(r: ApiDataResult<T>)
    ensures ToastCount(AlertEvents(r)) == 1
    ensures Occurrences(AlertEvents(r), ToastSuccess(r.message)) == 1 <==> IsSuccessCode(r.code)
    ensures Occurrences(AlertEvents(r), ToastError(r.message)) == 1 <==> !IsSuccessCode(r.code)
  {
  }

  lemma AlertExamples(message: string)
    ensures AlertEvents(ApiDataResult<int>.ApiDataResult("S001", None, message, None)) == [ToastSuccess(message)]
    ensures AlertEvents(ApiDataResult<int>.ApiDataResult("F001", None, message, None)) == [ToastError(message)]
    ensures AlertEvents(ApiDataResult<int>.ApiDataResult("", None, message, None)) == [ToastError(message)]
  {
  }

  // ---------------------------------------------------------------------
  // Settling a request: the try/catch shared by the list/get/post/put/
  // patch/delete calls

  function Settled<T>(o: Outcome<T>): ApiDataResult<T> {
    match o
    case Responded(body) => body
    case Failed(e) => ErrorResult(e)
  }

  /** A resolved request goes through logoutChecker and, when `notify`,
      alertResponseMessage; a rejected one only through getErrorResult. */
  function SettleEvents<T>(production: bool, o: Outcome<T>, notify: bool): seq<Event> {
    match o
    case Responded(body) => LogoutEvents(body.code) + (if notify then AlertEvents(body) else [])
    case Failed(_) => ErrorEvents(production)
  }

  /** The request followed by its settlement. */
  function CallEvents<T>(production: bool, verb: Verb, url: string, o: Outcome<T>, notify: bool): seq<Event> {
    [Request(verb, url)] + SettleEvents(production, o, notify)
  }

  /** A call shows a toast exactly when it asked for one and the request
      resolved; with `alert = false`, and on every rejected request, none. */
  lemma CallToasts<T>(production: bool, verb: Verb, url: string, o: Outcome<T>, notify: bool)
    ensures ToastCount(CallEvents(production, verb, url, o, notify)) == if notify && o.Responded? then 1 else 0
  {
    ToastCountAppend([Request(verb, url)], SettleEvents(production, o, notify));
    match o
    case Responded(body) =>
      LogoutCheckerEffects(body.code);
      ToastCountAppend(LogoutEvents(body.code), if notify then AlertEvents(body) else []);
    case Failed(_) =>
  }

  /** A call redirects to the login route exactly when the request resolved
      with F004 or F011 (a rejected request never does, whatever code its
      error body holds), and resets the timer exactly once when it resolved. */
  lemma CallSessionEffects<T>(production: bool, verb: Verb, url: string, o: Outcome<T>, notify: bool)
    ensures var n := Occurrences(CallEvents(production, verb, url, o, notify), Navigate(LoginRoute));
      n == if o.Responded? && IsSessionInvalid(o.body.code) then 1 else 0
    ensures Occurrences(CallEvents(production, verb, url, o, notify), TimerReset) ==
      if o.Responded? then 1 else 0
  {
    var log := SettleEvents(production, o, notify);
    OccurrencesAppend([Request(verb, url)], log, Navigate(LoginRoute));
    OccurrencesAppend([Request(verb, url)], log, TimerReset);
    match o
    case Responded(body) =>
      LogoutCheckerEffects(body.code);
      var alerts := if notify then AlertEvents(body) else [];
      OccurrencesAppend(LogoutEvents(body.code), alerts, Navigate(LoginRoute));
      OccurrencesAppend(LogoutEvents(body.code), alerts, TimerReset);
    case Failed(_) =>
      assert ErrorRoute != LoginRoute;
  }

  /** Every call sends exactly one request, and it comes first. */
  lemma CallSendsOneRequest<T>(production: bool, verb: Verb, url: string, o: Outcome<T>, notify: bool)
    ensures var log := CallEvents(production, verb, url, o, notify);
      |log| > 0 && log[0] == Request(verb, url) && Occurrences(log, Request(verb, url)) == 1
  {
    var log := SettleEvents(production, o, notify);
    OccurrencesAppend([Request(verb, url)], log, Request(verb, url));
    match o
    case Responded(body) =>
      var alerts := if notify then AlertEvents(body) else [];
      OccurrencesAppend(LogoutEvents(body.code), alerts, Request(verb, url));
      var nav := if IsSessionInvalid(body.code) then [Navigate(LoginRoute)] else [];
      OccurrencesAppend(nav, [TimerReset], Request(verb, url));
    case Failed(_) =>
  }

  // ---------------------------------------------------------------------
  // URLs

  /** The present parts of a key, in order: key, then key2 and key3 when truthy. */
  function UrlParts(key: RequestKey): (parts: seq<string>)
    ensures 1 <= |parts| <= 3
  {
    match key
    case Plain(v) => [ScalarText(v)]
    case Composite(k, k2, k3) =>
      [ScalarText(k)]
      + (if k2.Some? && Truthy(k2.value) then [ScalarText(k2.value)] else [])
      + (if k3.Some? && k3.value != "" then [k3.value] else [])
  }

  /** The trailing path segment makeUrlKey builds. */
  function UrlKey(key: RequestKey): string {
    JoinTerminated(UrlParts(key))
  }

  /** Cutting the segment at '/' gives back the present parts, so parts are
      never merged, reordered or padded with a placeholder (provided no part
      holds a '/' itself). */
  lemma UrlKeySegments(key: RequestKey)
    requires forall k :: 0 <= k < |UrlParts(key)| ==> '/' !in UrlParts(key)[k]
    ensures Segments(UrlKey(key)) == UrlParts(key)
    ensures var s := UrlKey(key); |s| > 0 && s[|s| - 1] == '/'
  {
    SegmentsOfJoin(UrlParts(key));
    JoinEndsWithSlash(UrlParts(key));
  }

  /** A key of numeric parts, with a key3 free of '/', always meets
      UrlKeySegments' condition: each part is exactly one path segment. */
  lemma NumericUrlKeySegments(key: RequestKey)
    requires key.Plain? ==> key.value.Num?
    requires key.Composite? ==> key.key.Num? && (key.key2.Some? ==> key.key2.value.Num?)
    requires key.Composite? && key.key3.Some? ==> '/' !in key.key3.value
    ensures Segments(UrlKey(key)) == UrlParts(key)
  {
    if key.Plain? {
      NumberTextHasNoSlash(key.value.n);
    } else {
      NumberTextHasNoSlash(key.key.n);
      if key.key2.Some? {
        NumberTextHasNoSlash(key.key2.value.n);
      }
    }
    UrlKeySegments(key);
  }

  lemma {:induction false} JoinEndsWithSlash(parts: seq<string>)
    requires parts != []
    ensures var s := JoinTerminated(parts); |s| > 0 && s[|s| - 1] == '/'
    decreases |parts|
  {
    if |parts| > 1 {
      JoinEndsWithSlash(parts[1..]);
    }
  }

  /** The examples `5` -> "5/", {key: 1, key2: 2} -> "1/2/", {key: 1, key3: "x"} -> "1/x/",
      and falsy key2/key3 left out. */
  lemma UrlKeyExamples()
    ensures UrlKey(Plain(Num(5))) == "5/"
    ensures UrlKey(Composite(Num(1), Some(Num(2)), None)) == "1/2/"
    ensures UrlKey(Composite(Num(1), None, Some("x"))) == "1/x/"
    ensures UrlKey(Composite(Str("a"), Some(Num(0)), Some(""))) == "a/"
    ensures UrlKey(Composite(Str("a"), Some(Str("")), Some("c"))) == "a/c/"
  {
  }

  /** `makeUrlKey`: the text of `key` followed by '/', or for a composite key
      each present part followed by '/'. */
  method MakeUrlKey(key: RequestKey) returns (r: string)
    ensures r == UrlKey(key)
    ensures key.Plain? ==> r == ScalarText(key.value) + "/"
  {
    if key.Composite? {
      r := ScalarText(key.key) + "/";
      ghost var parts := [ScalarText(key.key)];
      JoinTerminatedAppend([], ScalarText(key.key));
      assert [] + parts == parts;
      if key.key2.Some? && Truthy(key.key2.value) {
        JoinTerminatedAppend(parts, ScalarText(key.key2.value));
        r := r + ScalarText(key.key2.value) + "/";
        parts := parts + [ScalarText(key.key2.value)];
      }
      if key.key3.Some? && key.key3.value != "" {
        JoinTerminatedAppend(parts, key.key3.value);
        r := r + key.key3.value + "/";
        parts := parts + [key.key3.value];
      }
      assert parts == UrlParts(key);
    } else {
      r := ScalarText(key.value) + "/";
      JoinTerminatedAppend([], ScalarText(key.value));
      assert [] + [ScalarText(key.value)] == UrlParts(key);
    }
  }

  /** `api/${url}${id || ''}`: an undefined or zero id adds nothing. */
  function DataUrl(url: string, id: Option<int>): string {
    "api/" + url + (if id.Some? && id.value != 0 then IntText(id.value) else "")
  }

  function ApiUrl(url: string): string {
    "api/" + url
  }

  function KeyedUrl(url: string, key: RequestKey): string {
    ApiUrl(url) + UrlKey(key)
  }

  /** A falsy id is dropped; any other id is appended as its decimal text,
      which reads back as the id. */
  lemma DataUrlId(url: string, id: Option<int>)
    ensures id.None? || id == Some(0) ==> DataUrl(url, id) == ApiUrl(url)
    ensures id.Some? && id.value != 0 ==>
      var u := DataUrl(url, id);
      |u| > |ApiUrl(url)| && u[..|ApiUrl(url)|] == ApiUrl(url)
      && u[|ApiUrl(url)|..] == IntText(id.value)
      && ParseInt(u[|ApiUrl(url)|..]) == id.value
  {
    if id.Some? && id.value != 0 {
      ParseIntText(id.value);
      var u := DataUrl(url, id);
      assert u == ApiUrl(url) + IntText(id.value);
      assert u[|ApiUrl(url)|..] == IntText(id.value);
    }
  }

  // ---------------------------------------------------------------------
  // The read-through caches of getCodeListApi and getVariableApi

  function CodeKey(group: string): string {
    "code__" + group
  }

  function VariableKey(name: string): string {
    "variable__" + name
  }

  function CodeUrl(group: string): string {
    "api/codes/" + group
  }

  function VariableUrl(name: string): string {
    "api/variables/" + name
  }

  /** Code groups and variables live under disjoint keys, apart from the
      access token, and one key names one group or one variable. */
  lemma CacheKeysDistinct(g: string, g': string, v: string, v': string)
    ensures CodeKey(g) != VariableKey(v)
    ensures CodeKey(g) != AccessTokenKey && VariableKey(v) != AccessTokenKey
    ensures CodeKey(g) == CodeKey(g') <==> g == g'
    ensures VariableKey(v) == VariableKey(v') <==> v == v'
  {
    assert CodeKey(g)[0] == 'c' && VariableKey(v)[0] == 'v' && AccessTokenKey[0] == 'a';
    if CodeKey(g) == CodeKey(g') {
      assert g == CodeKey(g)[6..] == CodeKey(g')[6..] == g';
    }
    if VariableKey(v) == VariableKey(v') {
      assert v == VariableKey(v)[10..] == VariableKey(v')[10..] == v';
    }
  }

  /** The store holds code lists under code keys and text under variable keys. */
  ghost predicate WellTypedStore(m: map<string, Stored>) {
    && (forall g :: CodeKey(g) in m ==> m[CodeKey(g)].CodeItems?)
    && (forall v :: VariableKey(v) in m ==> m[VariableKey(v)].Text?)
  }

  lemma StoreCodeItemsKeepsTyped(m: map<string, Stored>, group: string, items: seq<SelectItem>)
    requires WellTypedStore(m)
    ensures WellTypedStore(m[CodeKey(group) := CodeItems(items)])
  {
    forall v | VariableKey(v) in m[CodeKey(group) := CodeItems(items)]
      ensures m[CodeKey(group) := CodeItems(items)][VariableKey(v)].Text?
    {
      CacheKeysDistinct(group, group, v, v);
    }
  }

  lemma StoreTextKeepsTyped(m: map<string, Stored>, name: string, text: string)
    requires WellTypedStore(m)
    ensures WellTypedStore(m[VariableKey(name) := Text(text)])
  {
    forall g | CodeKey(g) in m[VariableKey(name) := Text(text)]
      ensures m[VariableKey(name) := Text(text)][CodeKey(g)].CodeItems?
    {
      CacheKeysDistinct(g, g, name, name);
    }
  }

  /** One cached lookup: the value returned, the store after it and the
      events it caused. */
  datatype CacheStep<V> = CacheStep(value: V, storage: map<string, Stored>, log: seq<Event>)

  /** `getCodeListApi(group)` on store `m` when the request would end in `o`. */
  function CodeListStep(m: map<string, Stored>, group: string, o: Outcome<seq<SelectItem>>): (s: CacheStep<seq<SelectItem>>)
    requires WellTypedStore(m)
    ensures WellTypedStore(s.storage)
    ensures s.storage == m || s.storage == m[CodeKey(group) := CodeItems(s.value)]
  {
    var k := CodeKey(group);
    if k in m then CacheStep(m[k].items, m, [])
    else
      match o
      case Failed(_) => CacheStep([], m, [Request(Get, CodeUrl(group))])
      case Responded(body) =>
        var result := if body.data.Some? then body.data.value else [];
        StoreCodeItemsKeepsTyped(m, group, result);
        CacheStep(result,
                  if |result| > 0 then m[k := CodeItems(result)] else m,
                  [Request(Get, CodeUrl(group))] + LogoutEvents(body.code))
  }

  /** A hit returns the stored list, sends no request and changes nothing. */
  lemma CodeListHit(m: map<string, Stored>, group: string, o: Outcome<seq<SelectItem>>)
    requires WellTypedStore(m) && CodeKey(group) in m
    ensures var s := CodeListStep(m, group, o);
      s.value == m[CodeKey(group)].items && s.storage == m && s.log == []
  {
  }

  /** A miss sends one request for `api/codes/<group>`; if it is rejected the
      result is [] and the store is unchanged; if it resolves the result is
      its data or [], stored exactly when non-empty. */
  lemma CodeListMiss(m: map<string, Stored>, group: string, o: Outcome<seq<SelectItem>>)
    requires WellTypedStore(m) && CodeKey(group) !in m
    ensures var s := CodeListStep(m, group, o);
      && s.log[0] == Request(Get, CodeUrl(group))
      && Occurrences(s.log, Request(Get, CodeUrl(group))) == 1
      && (o.Failed? ==> s.value == [] && s.storage == m && |s.log| == 1)
      && (o.Responded? ==> s.value == (if o.body.data.Some? then o.body.data.value else []))
      && (CodeKey(group) in s.storage <==> o.Responded? && |s.value| > 0)
  {
    var s := CodeListStep(m, group, o);
    OccurrencesAppend([Request(Get, CodeUrl(group))], s.log[1..], Request(Get, CodeUrl(group)));
    assert s.log == [Request(Get, CodeUrl(group))] + s.log[1..];
    if o.Responded? {
      var nav := if IsSessionInvalid(o.body.code) then [Navigate(LoginRoute)] else [];
      assert s.log[1..] == nav + [TimerReset];
      OccurrencesAppend(nav, [TimerReset], Request(Get, CodeUrl(group)));
    }
  }

  /** After a miss that stored a non-empty list, the next lookup of the same
      group is served from the store, whatever its request would have done. */
  lemma CodeListServedAfterSuccess(m: map<string, Stored>, group: string, o1: Outcome<seq<SelectItem>>, o2: Outcome<seq<SelectItem>>)
    requires WellTypedStore(m)
    requires |CodeListStep(m, group, o1).value| > 0
    ensures var s1 := CodeListStep(m, group, o1);
      var s2 := CodeListStep(s1.storage, group, o2);
      s2.value == s1.value && s2.storage == s1.storage && s2.log == []
  {
  }

  /** A failed or empty miss leaves nothing behind: the next lookup asks again. */
  lemma CodeListRetriedAfterEmpty(m: map<string, Stored>, group: string, o1: Outcome<seq<SelectItem>>, o2: Outcome<seq<SelectItem>>)
    requires WellTypedStore(m) && CodeKey(group) !in m
    requires CodeListStep(m, group, o1).value == []
    ensures var s1 := CodeListStep(m, group, o1);
      s1.storage == m && CodeListStep(s1.storage, group, o2).log[0] == Request(Get, CodeUrl(group))
  {
  }

  /** `getVariableApi(name)` on store `m` when the request would end in `o`. */
  function VariableStep(m: map<string, Stored>, name: string, o: Outcome<string>): (s: CacheStep<Nullable>)
    requires WellTypedStore(m)
    ensures WellTypedStore(s.storage)
    ensures s.storage == m || (s.value.Value? && s.storage == m[VariableKey(name) := Text(s.value.text)])
  {
    var k := VariableKey(name);
    if k in m then CacheStep(Value(m[k].text), m, [])
    else
      match o
      case Failed(_) => CacheStep(Null, m, [Request(Get, VariableUrl(name))])
      case Responded(body) =>
        var result := if body.data.Some? then Value(body.data.value) else Undefined;
        var truthy := body.data.Some? && body.data.value != "";
        StoreTextKeepsTyped(m, name, if body.data.Some? then body.data.value else "");
        CacheStep(result,
                  if truthy then m[k := Text(body.data.value)] else m,
                  [Request(Get, VariableUrl(name))] + LogoutEvents(body.code))
  }

  lemma VariableHit(m: map<string, Stored>, name: string, o: Outcome<string>)
    requires WellTypedStore(m) && VariableKey(name) in m
    ensures var s := VariableStep(m, name, o);
      s.value == Value(m[VariableKey(name)].text) && s.storage == m && s.log == []
  {
  }

  /** A miss sends one request for `api/variables/<name>`; a rejected request
      yields null and stores nothing; a resolved one yields its data
      (undefined when there is none), stored exactly when it is a non-empty
      string. */
  lemma VariableMiss(m: map<string, Stored>, name: string, o: Outcome<string>)
    requires WellTypedStore(m) && VariableKey(name) !in m
    ensures var s := VariableStep(m, name, o);
      && s.log[0] == Request(Get, VariableUrl(name))
      && Occurrences(s.log, Request(Get, VariableUrl(name))) == 1
      && (o.Failed? ==> s.value == Null && s.storage == m && |s.log| == 1)
      && (o.Responded? && o.body.data.None? ==> s.value == Undefined)
      && (o.Responded? && o.body.data.Some? ==> s.value == Value(o.body.data.value))
      && (VariableKey(name) in s.storage <==> o.Responded? && o.body.data.Some? && o.body.data.value != "")
  {
    var s := VariableStep(m, name, o);
    OccurrencesAppend([Request(Get, VariableUrl(name))], s.log[1..], Request(Get, VariableUrl(name)));
    assert s.log == [Request(Get, VariableUrl(name))] + s.log[1..];
    if o.Responded? {
      var nav := if IsSessionInvalid(o.body.code) then [Navigate(LoginRoute)] else [];
      assert s.log[1..] == nav + [TimerReset];
      OccurrencesAppend(nav, [TimerReset], Request(Get, VariableUrl(name)));
    }
  }

  lemma VariableServedAfterSuccess(m: map<string, Stored>, name: string, o1: Outcome<string>, o2: Outcome<string>)
    requires WellTypedStore(m)
    requires VariableStep(m, name, o1).value.Value? && VariableStep(m, name, o1).value.text != ""
    ensures var s1 := VariableStep(m, name, o1);
      var s2 := VariableStep(s1.storage, name, o2);
      s2.value == s1.value && s2.storage == s1.storage && s2.log == []
  {
  }

  // ---------------------------------------------------------------------
  // getExcelApi

  datatype DownloadOutcome =
    | Received(data: seq<bv8>, contentDisposition: Option<string>)
    | TransportFailed(error: AxiosError)

  datatype DownloadError = Transport(error: AxiosError) | MissingContentDisposition
  datatype DownloadResult = Delivered(data: seq<bv8>) | Rejected(error: DownloadError)

  /** `contentDisposition.split('=').pop().split(';').join('')`. */
  function DownloadFileName(contentDisposition: string): (name: string)
    ensures '=' !in name && ';' !in name
  {
    RemoveAll(LastSegment(contentDisposition, '='), ';')
  }

  /** The file name is the text after the last '=', with every ';' removed. */
  lemma DownloadFileNameAfterLastEquals(p: string, x: string)
    requires '=' !in x
    ensures DownloadFileName(p + "=" + x) == RemoveAll(x, ';')
  {
    LastSegmentAfterSeparator(p, x, '=');
  }

  lemma DownloadFileNameWithoutEquals(s: string)
    requires '=' !in s
    ensures DownloadFileName(s) == RemoveAll(s, ';')
  {
    LastSegmentWithoutSeparator(s, '=');
  }

  lemma DownloadFileNameExample()
    ensures DownloadFileName("attachment; filename=report.xlsx") == "report.xlsx"
  {
    var p, x := "attachment; filename", "report.xlsx";
    assert "attachment; filename=report.xlsx" == p + "=" + x;
    DownloadFileNameAfterLastEquals(p, x);
    RemoveAllKeepsOthers(x, ';');
  }

  /** `envs.API_HOST || 'http://localhost:8080/'`. */
  function BaseUrl(apiHost: string): string {
    if apiHost == "" then DefaultApiHost else apiHost
  }

  function AccessToken(m: map<string, Stored>): Option<Stored> {
    if AccessTokenKey in m then Some(m[AccessTokenKey]) else None
  }

  function DownloadResultOf(o: DownloadOutcome): DownloadResult {
    match o
    case TransportFailed(e) => Rejected(Transport(e))
    case Received(data, None) => Rejected(MissingContentDisposition)
    case Received(data, Some(_)) => Delivered(data)
  }

  function DownloadEvents(apiHost: string, m: map<string, Stored>, url: string, o: DownloadOutcome): seq<Event> {
    [DownloadRequest(BaseUrl(apiHost), url, AccessToken(m))]
    + match o
      case Received(_, Some(cd)) => [SaveFile(DownloadFileName(cd)), TimerReset]
      case _ => []
  }

  /** A download fails as a rejection (never normalised into an
      ApiDataResult), and only a delivered file resets the timer. */
  lemma DownloadOutcomes(apiHost: string, m: map<string, Stored>, url: string, o: DownloadOutcome)
    ensures DownloadResultOf(o).Delivered? <==> o.Received? && o.contentDisposition.Some?
    ensures o.TransportFailed? ==> DownloadResultOf(o) == Rejected(Transport(o.error))
    ensures Occurrences(DownloadEvents(apiHost, m, url, o), TimerReset) ==
      if DownloadResultOf(o).Delivered? then 1 else 0
  {
    var request := [DownloadRequest(BaseUrl(apiHost), url, AccessToken(m))];
    var rest := DownloadEvents(apiHost, m, url, o)[1..];
    assert DownloadEvents(apiHost, m, url, o) == request + rest;
    OccurrencesAppend(request, rest, TimerReset);
    if o.Received? && o.contentDisposition.Some? {
      var name := DownloadFileName(o.contentDisposition.value);
      assert rest == [SaveFile(name)] + [TimerReset];
      OccurrencesAppend([SaveFile(name)], [TimerReset], TimerReset);
    } else {
      assert rest == [];
    }
  }

  // ---------------------------------------------------------------------
  // The layer itself

  class ApiClient {
    /** `envs.ENV === 'production'`: turns off the debugging redirect. */
    const production: bool
    /** `envs.API_HOST`, "" when unset. */
    const apiHost: string
    /** The browser key/value store (`Vue.$storage`). */
    var storage: map<string, Stored>
    /** Effects on router, timer, toasts and downloads, oldest first. */
    var events: seq<Event>

    ghost predicate Valid()
      reads this
    {
      WellTypedStore(storage)
    }

    constructor (production: bool, apiHost: string, storage: map<string, Stored>)
      requires WellTypedStore(storage)
      ensures Valid()
      ensures this.production == production && this.apiHost == apiHost
      ensures this.storage == storage && events == []
    {
      this.production := production;
      this.apiHost := apiHost;
      this.storage := storage;
      events := [];
    }

    /** `getErrorResult` */
    method GetErrorResult<T>(error: AxiosError) returns (r: ApiDataResult<T>)
      modifies this`events
      ensures r == ErrorResult(error)
      ensures events == old(events) + ErrorEvents(production)
    {
      if !production {
        events := events + [Navigate(ErrorRoute)];
      }
      r := ErrorResult(error);
    }

    /** `logoutChecker` */
    method LogoutChecker(code: string)
      modifies this`events
      ensures events == old(events) + LogoutEvents(code)
    {
      if code in SessionInvalidCodes {
        events := events + [Navigate(LoginRoute)];
      }
      events := events + [TimerReset];
    }

    /** `alertResponseMessage` */
    method AlertResponseMessage<T>(data: ApiDataResult<T>)
      modifies this`events
      ensures events == old(events) + AlertEvents(data)
    {
      if IsSuccessCode(data.code) {
        events := events + [ToastSuccess(data.message)];
      } else {
        events := events + [ToastError(data.message)];
      }
    }

    /** Sends `verb url` and settles it, as each exported call does. */
    method Call<T>(verb: Verb, url: string, o: Outcome<T>, notify: bool) returns (r: ApiDataResult<T>)
      modifies this`events
      ensures r == Settled(o)
      ensures events == old(events) + CallEvents(production, verb, url, o, notify)
    {
      events := events + [Request(verb, url)];
      match o
      case Responded(body) =>
        LogoutChecker(body.code);
        if notify {
          AlertResponseMessage(body);
        }
        r := body;
      case Failed(error) =>
        r := GetErrorResult(error);
    }

    /** `getListApi`: the url is used as given. */
    method GetList<T>(url: string, o: Outcome<T>) returns (r: ApiDataResult<T>)
      modifies this`events
      ensures r == Settled(o)
      ensures events == old(events) + CallEvents(production, Get, url, o, false)
    {
      r := Call(Get, url, o, false);
    }

    /** `getDataApi` */
    method GetData<T>(url: string, id: Option<int>, o: Outcome<T>) returns (r: ApiDataResult<T>)
      modifies this`events
      ensures r == Settled(o)
      ensures events == old(events) + CallEvents(production, Get, DataUrl(url, id), o, false)
    {
      r := Call(Get, DataUrl(url, id), o, false);
    }

    /** `getApi` */
    method GetApi<T>(url: string, o: Outcome<T>) returns (r: ApiDataResult<T>)
      modifies this`events
      ensures r == Settled(o)
      ensures events == old(events) + CallEvents(production, Get, ApiUrl(url), o, false)
    {
      r := Call(Get, ApiUrl(url), o, false);
    }

    /** `postDataApi` */
    method PostData<T>(url: string, o: Outcome<T>, alert: bool := true) returns (r: ApiDataResult<T>)
      modifies this`events
      ensures r == Settled(o)
      ensures events == old(events) + CallEvents(production, Post, ApiUrl(url), o, alert)
    {
      r := Call(Post, ApiUrl(url), o, alert);
    }

    /** `putDataApi` */
    method PutData<T>(url: string, key: RequestKey, o: Outcome<T>, alert: bool := true) returns (r: ApiDataResult<T>)
      modifies this`events
      ensures r == Settled(o)
      ensures events == old(events) + CallEvents(production, Put, KeyedUrl(url, key), o, alert)
    {
      var segment := MakeUrlKey(key);
      r := Call(Put, ApiUrl(url) + segment, o, alert);
    }

    /** `patchDataApi` */
    method PatchData<T>(url: string, key: RequestKey, o: Outcome<T>, alert: bool := true) returns (r: ApiDataResult<T>)
      modifies this`events
      ensures r == Settled(o)
      ensures events == old(events) + CallEvents(production, Patch, KeyedUrl(url, key), o, alert)
    {
      var segment := MakeUrlKey(key);
      r := Call(Patch, ApiUrl(url) + segment, o, alert);
    }

    /** `deleteDataApi` */
    method DeleteData<T>(url: string, key: RequestKey, o: Outcome<T>, alert: bool := true) returns (r: ApiDataResult<T>)
      modifies this`events
      ensures r == Settled(o)
      ensures events == old(events) + CallEvents(production, Delete, KeyedUrl(url, key), o, alert)
    {
      var segment := MakeUrlKey(key);
      r := Call(Delete, ApiUrl(url) + segment, o, alert);
    }

    /** `getCodeListApi` */
    method GetCodeList(group: string, o: Outcome<seq<SelectItem>>) returns (items: seq<SelectItem>)
      requires Valid()
      modifies this`storage, this`events
      ensures Valid()
      ensures var s := CodeListStep(old(storage), group, o);
        items == s.value && storage == s.storage && events == old(events) + s.log
    {
      var key := CodeKey(group);
      if key in storage {
        items := storage[key].items;
      } else {
        events := events + [Request(Get, CodeUrl(group))];
        match o
        case Failed(_) =>
          items := [];
        case Responded(body) =>
          LogoutChecker(body.code);
          items := if body.data.Some? then body.data.value else [];
          if |items| > 0 {
            StoreCodeItemsKeepsTyped(storage, group, items);
            storage := storage[key := CodeItems(items)];
          }
      }
    }

    /** `getVariableApi` */
    method GetVariable(name: string, o: Outcome<string>) returns (v: Nullable)
      requires Valid()
      modifies this`storage, this`events
      ensures Valid()
      ensures var s := VariableStep(old(storage), name, o);
        v == s.value && storage == s.storage && events == old(events) + s.log
    {
      var key := VariableKey(name);
      if key in storage {
        v := Value(storage[key].text);
      } else {
        events := events + [Request(Get, VariableUrl(name))];
        match o
        case Failed(_) =>
          v := Null;
        case Responded(body) =>
          LogoutChecker(body.code);
          v := if body.data.Some? then Value(body.data.value) else Undefined;
          if body.data.Some? && body.data.value != "" {
            StoreTextKeepsTyped(storage, name, body.data.value);
            storage := storage[key := Text(body.data.value)];
          }
      }
    }

    /** `getExcelApi`: a rejected request or a response without a
        content-disposition header propagates as a rejection. */
    method GetExcel(url: string, o: DownloadOutcome) returns (r: DownloadResult)
      modifies this`events
      ensures r == DownloadResultOf(o)
      ensures events == old(events) + DownloadEvents(apiHost, storage, url, o)
    {
      events := events + [DownloadRequest(BaseUrl(apiHost), url, AccessToken(storage))];
      match o
      case TransportFailed(e) =>
        r := Rejected(Transport(e));
      case Received(data, header) =>
        if header.None? {
          r := Rejected(MissingContentDisposition);
        } else {
          events := events + [SaveFile(DownloadFileName(header.value)), TimerReset];
          r := Delivered(data);
        }
    }
  }
}
