/** The client's HTTP wrapper of services/api.py: a cached token bundle,
    the bearer header, and the one-refresh-one-replay policy on a 401.
    HTTP exchanges are inputs: each one the client might make is given
    as its outcome, and the methods report which calls they made. */
module Api {
  import opened Text
  import opened Session

  const DefaultBaseUrl := "http://127.0.0.1:8000"
  const NetworkFailure := "Falha de rede: "

  /** JSON values as far as the client looks into them; numbers, booleans
      and arrays are `JOther`. */
  datatype Json = JNull | JStr(s: string) | JObj(fields: map<string, Json>) | JOther

  /** A response body: parsed JSON when the content type is
      `application/json`, the text otherwise, or JSON that fails to parse. */
  datatype Body = JsonBody(value: Json) | TextBody(text: string) | Unparsable

  /** The outcome of one `httpx` call: a response, or an `httpx.RequestError`. */
  datatype Exchange = Reply(status: int, body: Body) | TransportError(message: string)

  /** A call the client made: the method, the URL, the query and the headers. */
  datatype Call = Call(verb: string, url: string, params: map<string, string>, headers: map<string, string>)

  /** What `request` gives its caller: a `(status, data)` pair, or an
      exception it lets through. */
  datatype Answer = Answer(status: int, body: Body) | Raised

  /** `not value` for a field that may be `None`. */
  predicate Truthy(value: Option<string>)
  {
    value.Some? && value.value != ""
  }

  /** `data.get(name)` for a string field; anything else counts as absent. */
  function StringField(fields: map<string, Json>, name: string): (r: Option<string>)
    ensures r.Some? <==> name in fields && fields[name].JStr?
    ensures r.Some? ==> fields[name] == JStr(r.value)
  {
    if name in fields && fields[name].JStr? then Some(fields[name].s) else None
  }

  /** The bundle after `_save(access, refresh)`: a field is overwritten only
      by a truthy value. */
  function Merge(t: TokenBundle, access: Option<string>, refresh: Option<string>): (r: TokenBundle)
    ensures r.access == (if Truthy(access) then access else t.access)
    ensures r.refresh == (if Truthy(refresh) then refresh else t.refresh)
  {
    TokenBundle(if Truthy(access) then access else t.access, if Truthy(refresh) then refresh else t.refresh)
  }

  /** Falsy values never erase a token, and saving the same values twice
      is saving them once. */
  lemma MergeKeeps(t: TokenBundle, access: Option<string>, refresh: Option<string>)
    ensures !Truthy(access) && !Truthy(refresh) ==> Merge(t, access, refresh) == t
    ensures Merge(Merge(t, access, refresh), access, refresh) == Merge(t, access, refresh)
    ensures Truthy(t.access) ==> Truthy(Merge(t, access, refresh).access)
  {
  }

  /** The `{"error": ...}` body of a transport failure. */
  function NetworkErrorBody(message: string): Body
  {
    JsonBody(JObj(map["error" := JStr(NetworkFailure + message)]))
  }

  /** How `request` turns the last exchange into its answer: a transport
      error is a status 0 answer, JSON that fails to parse is raised. */
  function Deliver(e: Exchange): (a: Answer)
    ensures e.TransportError? ==> a == Answer(0, NetworkErrorBody(e.message))
    ensures e.Reply? && !e.body.Unparsable? ==> a == Answer(e.status, e.body)
    ensures a.Raised? <==> e.Reply? && e.body.Unparsable?
  {
    match e
    case TransportError(message) => Answer(0, NetworkErrorBody(message))
    case Reply(status, body) => if body.Unparsable? then Raised else Answer(status, body)
  }

  /** Whether `_refresh_if_needed` succeeds on this exchange: a refresh
      token is held, and the answer is a 2xx (`raise_for_status`) whose
      body is a JSON object (`r.json()` and `data.get`). */
  predicate RefreshAccepted(t: TokenBundle, e: Exchange)
  {
    Truthy(t.refresh) && e.Reply? && 200 <= e.status < 300 && e.body.JsonBody? && e.body.value.JObj?
  }

  /** The bundle after `_save(data.get("access_token"), data.get("refresh_token"))`. */
  function Renewed(t: TokenBundle, fields: map<string, Json>): TokenBundle
  {
    Merge(t, StringField(fields, AccessEntry), StringField(fields, RefreshEntry))
  }

  /** The stores after that same `_save`: written only when a field is truthy. */
  function Persisted(s: Stores, t: TokenBundle, fields: map<string, Json>): Stores
  {
    if Truthy(StringField(fields, AccessEntry)) || Truthy(StringField(fields, RefreshEntry)) then
      SaveTo(s, Renewed(t, fields))
    else s
  }

  class ApiClient {
    const store: TokenStore
    var baseUrl: string
    var tokens: TokenBundle

    /** `__init__`: trailing slashes are cut off the base URL and the
        bundle is whatever the store holds. */
    constructor (url: string, store: TokenStore)
      ensures this.store == store && tokens == LoadFrom(store.Contents())
      ensures baseUrl == RStripChar(url, '/') && (baseUrl == [] || baseUrl[|baseUrl| - 1] != '/')
    {
      var loaded := store.Load();
      this.store := store;
      baseUrl := RStripChar(url, '/');
      tokens := loaded;
    }

    /** `authorized`: the access token is present and non-empty. */
    predicate Authorized()
      reads this
    {
      Truthy(tokens.access)
    }

    /** `_auth_headers`: the bearer header exactly when authorized. */
    function AuthHeaders(): (h: map<string, string>)
      reads this
      ensures Authorized() <==> "Authorization" in h
      ensures Authorized() ==> h == map["Authorization" := "Bearer " + tokens.access.value]
      ensures !Authorized() ==> h == map[]
    {
      if Truthy(tokens.access) then map["Authorization" := "Bearer " + tokens.access.value] else map[]
    }

    /** `_save`: the truthy values replace the bundle's fields, and the
        bundle is persisted only when at least one value was truthy. */
    method Save(access: Option<string>, refresh: Option<string>)
      modifies this, store
      ensures tokens == Merge(old(tokens), access, refresh)
      ensures baseUrl == old(baseUrl)
      ensures Truthy(access) || Truthy(refresh) ==> store.Contents() == SaveTo(old(store.Contents()), tokens)
      ensures !(Truthy(access) || Truthy(refresh)) ==> store.Contents() == old(store.Contents())
    {
      if Truthy(access) || Truthy(refresh) {
        if Truthy(access) {
          tokens := tokens.(access := access);
        }
        if Truthy(refresh) {
          tokens := tokens.(refresh := refresh);
        }
        store.Save(tokens);
      }
    }

    /** `_refresh_if_needed` with `e` the outcome of the refresh call. Without
        a refresh token no call is made; a successful answer saves what it
        carries; any failure clears the store and empties the bundle. */
    method RefreshIfNeeded(e: Exchange) returns (ok: bool, call: Option<Call>)
      modifies this, store
      ensures baseUrl == old(baseUrl)
      ensures ok == RefreshAccepted(old(tokens), e)
      ensures !Truthy(old(tokens).refresh) ==>
        call.None? && tokens == old(tokens) && store.Contents() == old(store.Contents())
      ensures Truthy(old(tokens).refresh) ==>
        call == Some(Call("POST", old(baseUrl) + "/auth/refresh", map["refresh_token" := old(tokens).refresh.value], map[]))
      ensures ok ==>
        && tokens == Renewed(old(tokens), e.body.value.fields)
        && store.Contents() == Persisted(old(store.Contents()), old(tokens), e.body.value.fields)
      ensures Truthy(old(tokens).refresh) && !ok ==>
        tokens == EmptyBundle && store.Contents() == ClearFrom(old(store.Contents()))
    {
      if !Truthy(tokens.refresh) {
        return false, None;
      }
      call := Some(Call("POST", baseUrl + "/auth/refresh", map["refresh_token" := tokens.refresh.value], map[]));
      if RefreshAccepted(tokens, e) {
        var fields := e.body.value.fields;
        Save(StringField(fields, AccessEntry), StringField(fields, RefreshEntry));
        ok := true;
      } else {
        store.Clear();
        tokens := EmptyBundle;
        ok := false;
      }
    }

    /** `request(verb, path, params=..., require_auth=...)`. `first` is the outcome of
        the call, `refreshed` that of the refresh call and `replay` that of
        the repeated call; the last two are used only on a 401 to a request
        that needs authentication. Headers go only with such requests. */
    method Request(verb: string, path: string, params: map<string, string>, requireAuth: bool,
                   first: Exchange, refreshed: Exchange, replay: Exchange)
      returns (answer: Answer, calls: seq<Call>)
      modifies this, store
      ensures baseUrl == old(baseUrl)
      ensures 1 <= |calls| <= 3
      ensures calls[0] == Call(verb, old(baseUrl) + path, params, if requireAuth then old(AuthHeaders()) else map[])
      ensures !(requireAuth && first.Reply? && first.status == 401) ==>
        && answer == Deliver(first) && |calls| == 1
        && tokens == old(tokens) && store.Contents() == old(store.Contents())
      ensures requireAuth && first.Reply? && first.status == 401 && !RefreshAccepted(old(tokens), refreshed) ==>
        answer == Deliver(first) && |calls| <= 2
      ensures requireAuth && first.Reply? && first.status == 401 && !Truthy(old(tokens).refresh) ==>
        |calls| == 1 && tokens == old(tokens) && store.Contents() == old(store.Contents())
      ensures requireAuth && first.Reply? && first.status == 401 && Truthy(old(tokens).refresh) &&
              !RefreshAccepted(old(tokens), refreshed) ==>
        && |calls| == 2
        && calls[1] == Call("POST", old(baseUrl) + "/auth/refresh", map["refresh_token" := old(tokens).refresh.value], map[])
        && tokens == EmptyBundle && store.Contents() == ClearFrom(old(store.Contents()))
      ensures requireAuth && first.Reply? && first.status == 401 && RefreshAccepted(old(tokens), refreshed) ==>
        && answer == Deliver(replay) && |calls| == 3
        && calls[1] == Call("POST", old(baseUrl) + "/auth/refresh", map["refresh_token" := old(tokens).refresh.value], map[])
        && calls[2] == Call(verb, old(baseUrl) + path, params, AuthHeaders())
        && tokens == Renewed(old(tokens), refreshed.body.value.fields)
        && store.Contents() == Persisted(old(store.Contents()), old(tokens), refreshed.body.value.fields)
    {
      var url := baseUrl + path;
      var headers := if requireAuth then AuthHeaders() else map[];
      calls := [Call(verb, url, params, headers)];
      var r := first;
      if r.Reply? && r.status == 401 && requireAuth {
        var ok, call := RefreshIfNeeded(refreshed);
        if call.Some? {
          calls := calls + [call.value];
        }
        if ok {
          headers := AuthHeaders();
          calls := calls + [Call(verb, url, params, headers)];
          r := replay;
        }
      }
      answer := Deliver(r);
    }

    /** After a 200 from login or signup, `data.get` needs a JSON object;
        on anything else it raises. */
    method SaveIssued(answer: Answer) returns (result: Answer)
      modifies this, store
      ensures baseUrl == old(baseUrl)
      ensures answer.Answer? && answer.status == 200 && answer.body.JsonBody? && answer.body.value.JObj? ==>
        && result == answer
        && tokens == Renewed(old(tokens), answer.body.value.fields)
        && store.Contents() == Persisted(old(store.Contents()), old(tokens), answer.body.value.fields)
      ensures answer.Answer? && answer.status == 200 && !(answer.body.JsonBody? && answer.body.value.JObj?) ==>
        result.Raised? && tokens == old(tokens) && store.Contents() == old(store.Contents())
      ensures !(answer.Answer? && answer.status == 200) ==>
        result == answer && tokens == old(tokens) && store.Contents() == old(store.Contents())
    {
      result := answer;
      if answer.Answer? && answer.status == 200 {
        if answer.body.JsonBody? && answer.body.value.JObj? {
          var fields := answer.body.value.fields;
          Save(StringField(fields, AccessEntry), StringField(fields, RefreshEntry));
        } else {
          result := Raised;
        }
      }
    }

    /** `login`: tokens are kept only from a 200. */
    method Login(email: string, password: string, e: Exchange) returns (result: Answer, calls: seq<Call>)
      modifies this, store
      ensures calls == [Call("POST", old(baseUrl) + "/auth/login", map[], map[])]
      ensures Deliver(e).Answer? && Deliver(e).status == 200 && Deliver(e).body.JsonBody? && Deliver(e).body.value.JObj? ==>
        && result == Deliver(e)
        && tokens == Renewed(old(tokens), Deliver(e).body.value.fields)
        && store.Contents() == Persisted(old(store.Contents()), old(tokens), Deliver(e).body.value.fields)
      ensures !(Deliver(e).Answer? && Deliver(e).status == 200) ==>
        result == Deliver(e) && tokens == old(tokens) && store.Contents() == old(store.Contents())
      ensures Deliver(e).Answer? && Deliver(e).status == 200 && !(Deliver(e).body.JsonBody? && Deliver(e).body.value.JObj?) ==>
        result.Raised? && tokens == old(tokens) && store.Contents() == old(store.Contents())
    {
      var answer;
      answer, calls := Request("POST", "/auth/login", map[], false, e, e, e);
      result := SaveIssued(answer);
    }

    /** `signup` against the mock server: the same rule as `login`. */
    method Signup(name: string, email: string, password: string, e: Exchange) returns (result: Answer, calls: seq<Call>)
      modifies this, store
      ensures calls == [Call("POST", old(baseUrl) + "/auth/signup", map[], map[])]
      ensures Deliver(e).Answer? && Deliver(e).status == 200 && Deliver(e).body.JsonBody? && Deliver(e).body.value.JObj? ==>
        && result == Deliver(e)
        && tokens == Renewed(old(tokens), Deliver(e).body.value.fields)
        && store.Contents() == Persisted(old(store.Contents()), old(tokens), Deliver(e).body.value.fields)
      ensures !(Deliver(e).Answer? && Deliver(e).status == 200) ==>
        result == Deliver(e) && tokens == old(tokens) && store.Contents() == old(store.Contents())
      ensures Deliver(e).Answer? && Deliver(e).status == 200 && !(Deliver(e).body.JsonBody? && Deliver(e).body.value.JObj?) ==>
        result.Raised? && tokens == old(tokens) && store.Contents() == old(store.Contents())
    {
      var answer;
      answer, calls := Request("POST", "/auth/signup", map[], false, e, e, e);
      result := SaveIssued(answer);
    }

    /** `forgot`: a query parameter, no authentication. */
    method Forgot(email: string, e: Exchange) returns (result: Answer, calls: seq<Call>)
      modifies this, store
      ensures result == Deliver(e) && calls == [Call("POST", old(baseUrl) + "/auth/forgot", map["email" := email], map[])]
      ensures tokens == old(tokens) && store.Contents() == old(store.Contents())
    {
      result, calls := Request("POST", "/auth/forgot", map["email" := email], false, e, e, e);
    }

    /** `me`: the one endpoint that needs authentication. */
    method Me(first: Exchange, refreshed: Exchange, replay: Exchange) returns (result: Answer, calls: seq<Call>)
      modifies this, store
      ensures 1 <= |calls| <= 3 && calls[0] == Call("GET", old(baseUrl) + "/me", map[], old(AuthHeaders()))
      ensures first.Reply? && first.status == 401 && RefreshAccepted(old(tokens), refreshed) ==>
        && result == Deliver(replay) && |calls| == 3
        && calls[2] == Call("GET", old(baseUrl) + "/me", map[], AuthHeaders())
        && tokens == Renewed(old(tokens), refreshed.body.value.fields)
        && store.Contents() == Persisted(old(store.Contents()), old(tokens), refreshed.body.value.fields)
      ensures !(first.Reply? && first.status == 401 && RefreshAccepted(old(tokens), refreshed)) ==>
        result == Deliver(first)
      ensures first.Reply? && first.status == 401 && RefreshAccepted(old(tokens), refreshed) ==>
        calls[1] == Call("POST", old(baseUrl) + "/auth/refresh", map["refresh_token" := old(tokens).refresh.value], map[])
      ensures !(first.Reply? && first.status == 401) ==>
        |calls| == 1 && tokens == old(tokens) && store.Contents() == old(store.Contents())
      ensures first.Reply? && first.status == 401 && !Truthy(old(tokens).refresh) ==>
        |calls| == 1 && tokens == old(tokens) && store.Contents() == old(store.Contents())
      ensures first.Reply? && first.status == 401 && Truthy(old(tokens).refresh) && !RefreshAccepted(old(tokens), refreshed) ==>
        && |calls| == 2
        && calls[1] == Call("POST", old(baseUrl) + "/auth/refresh", map["refresh_token" := old(tokens).refresh.value], map[])
        && tokens == EmptyBundle && store.Contents() == ClearFrom(old(store.Contents()))
    {
      result, calls := Request("GET", "/me", map[], true, first, refreshed, replay);
    }

    /** `logout`: the store is cleared and the bundle emptied. */
    method Logout()
      modifies this, store
      ensures tokens == EmptyBundle && !Authorized() && AuthHeaders() == map[]
      ensures store.Contents() == ClearFrom(old(store.Contents()))
      ensures baseUrl == old(baseUrl)
    {
      store.Clear();
      tokens := EmptyBundle;
    }
  }

  /** A login whose answer carries both tokens authorizes the client, and
      the bearer header then carries the new access token. */
  lemma LoginAuthorizes(t: TokenBundle, access: string, refresh: string)
    requires access != "" && refresh != ""
    ensures Merge(t, Some(access), Some(refresh)) == TokenBundle(Some(access), Some(refresh))
  {
  }

  /** An expired access token, a working refresh token, and a replay: the
      caller sees only the replayed answer, and the session survives. */
  method ExpiredAccessScenario() returns (answer: Answer, calls: seq<Call>, saved: TokenBundle)
    ensures answer == Answer(200, JsonBody(JObj(map["email" := JStr("a@x.com")])))
    ensures |calls| == 3 && calls[2].headers == map["Authorization" := "Bearer acc2"]
    ensures saved == TokenBundle(Some("acc2"), Some("ref2"))
  {
    var store := new TokenStore(false, map[], Some(map[AccessEntry := Some("acc1"), RefreshEntry := Some("ref1")]));
    var client := new ApiClient(DefaultBaseUrl, store);
    assert client.tokens == TokenBundle(Some("acc1"), Some("ref1"));
    var first := Reply(401, JsonBody(JObj(map["detail" := JStr("Token expirado")])));
    var renewed := Reply(200, JsonBody(JObj(map[AccessEntry := JStr("acc2"), RefreshEntry := JStr("ref2")])));
    var replay := Reply(200, JsonBody(JObj(map["email" := JStr("a@x.com")])));
    EntriesDiffer();
    assert RefreshAccepted(client.tokens, renewed);
    answer, calls := client.Me(first, renewed, replay);
    assert client.tokens == TokenBundle(Some("acc2"), Some("ref2"));
    assert client.AuthHeaders() == map["Authorization" := "Bearer " + "acc2"];
    assert "Bearer " + "acc2" == "Bearer acc2";
    saved := store.Load();
  }
}
