/**
 * The code-delivery endpoint (backend/send-code/index.py): `handler`
 * classifies a request into an HTTP response and routes it to the e-mail
 * or the SMS sender. The senders' network exchanges (SMTP, the SMS
 * provider's HTTP API) are parameters: functions from what would be sent
 * to the outcome.
 */
module SendCode {
  import opened Wrappers
  import opened Ascii

  /** The request body after `json.loads`: the three fields, or the failure to read them. */
  datatype Body =
    | Fields(contactType: Option<string>, contact: Option<string>, code: Option<string>)
    | Malformed(error: string)     // `json.loads` raised, or the JSON was not an object

  /** The invocation event; a missing `body` key reads as `'{}'`, i.e. `Fields(None, None, None)`. */
  datatype Event = Event(httpMethod: Option<string>, body: Body)

  /** The environment variables the senders read. */
  datatype Env = Env(smtpPassword: Option<string>, smsApiKey: Option<string>)

  /** A sender's reply dict: `success` and, on failure, `error`. */
  datatype SendResult = Sent | Failed(error: string)

  /** The message the SMTP exchange would deliver. */
  datatype Email = Email(to: string, code: string)

  /** The query parameters of the SMS provider call. */
  datatype SmsQuery = SmsQuery(login: string, psw: string, phones: string, mes: string, fmt: int)

  /** The login and password packed in `SMS_API_KEY` as `login:psw`. */
  datatype Credentials = Credentials(login: string, psw: string)

  datatype ResponseBody = Empty | ErrorBody(error: string) | SuccessBody(message: string)

  datatype Response = Response(statusCode: int, headers: map<string, string>, body: ResponseBody)

  const DemoApiKey := "demo"
  const SmsFormat := 3
  const SmsPrefix := "Ваш код верификации: "

  const PreflightHeaders: map<string, string> := map[
    "Access-Control-Allow-Origin" := "*",
    "Access-Control-Allow-Methods" := "POST, OPTIONS",
    "Access-Control-Allow-Headers" := "Content-Type"]

  const JsonHeaders: map<string, string> := map[
    "Content-Type" := "application/json",
    "Access-Control-Allow-Origin" := "*"]

  /** Python truthiness of an optional string: present and non-empty. */
  predicate Truthy(s: Option<string>) {
    s.Some? && s.value != ""
  }

  /** `event.get('httpMethod', 'POST')`. */
  function Method(event: Event): string {
    event.httpMethod.GetOr("POST")
  }

  /** `all([contact_type, contact, code])`. */
  predicate HasRequiredFields(body: Body) {
    body.Fields? && Truthy(body.contactType) && Truthy(body.contact) && Truthy(body.code)
  }

  // ---------------------------------------------------------------------
  // String helpers of `send_sms`

  /**
   * `''.join(filter(str.isdigit, phone))`: the digits of `phone`, in order.
   */
  function CleanPhone(phone: string): (d: string)
    ensures AllDigits(d)
    ensures forall c :: IsDigit(c) ==> multiset(d)[c] == multiset(phone)[c]
    ensures IsSubsequence(d, phone)
  {
    if phone == [] then []
    else
      assert phone == [phone[0]] + phone[1..];
      if IsDigit(phone[0]) then [phone[0]] + CleanPhone(phone[1..])
      else CleanPhone(phone[1..])
  }

  /** `a` can be obtained from `b` by deleting characters (greedy matching decides it). */
  predicate IsSubsequence(a: string, b: string)
    decreases |b|
  {
    if a == [] then true
    else if b == [] then false
    else if a[0] == b[0] then IsSubsequence(a[1..], b[1..])
    else IsSubsequence(a, b[1..])
  }

  /** A subsequence never holds a character more often than the whole. */
  lemma {:induction false} SubsequenceMultiset(a: string, b: string)
    requires IsSubsequence(a, b)
    ensures multiset(a) <= multiset(b)
    decreases |b|
  {
    if a != [] {
      assert b == [b[0]] + b[1..];
      if a[0] == b[0] {
        assert a == [a[0]] + a[1..];
        SubsequenceMultiset(a[1..], b[1..]);
      } else {
        SubsequenceMultiset(a, b[1..]);
      }
    }
  }

  /**
   * The three properties of `CleanPhone` determine it: any digit string
   * that is a subsequence of `phone` and keeps every digit's count is the
   * filtered phone number.
   */
  lemma {:induction false} CleanPhoneUnique(d: string, phone: string)
    requires AllDigits(d)
    requires forall c :: IsDigit(c) ==> multiset(d)[c] == multiset(phone)[c]
    requires IsSubsequence(d, phone)
    ensures d == CleanPhone(phone)
    decreases |phone|
  {
    if phone == [] {
      return;
    }
    var x := phone[0];
    assert phone == [x] + phone[1..];
    if !IsDigit(x) {
      assert d == [] || d[0] != x;
      forall c | IsDigit(c) ensures multiset(d)[c] == multiset(phone[1..])[c] { }
      CleanPhoneUnique(d, phone[1..]);
    } else {
      assert multiset(d)[x] >= 1;
      assert d != [];
      assert d == [d[0]] + d[1..];
      if d[0] == x {
        forall c | IsDigit(c) ensures multiset(d[1..])[c] == multiset(phone[1..])[c] { }
        CleanPhoneUnique(d[1..], phone[1..]);
      } else {
        SubsequenceMultiset(d, phone[1..]);
        assert false;
      }
    }
  }

  /** A number that is already only digits passes the filter unchanged. */
  lemma {:induction false} CleanPhoneKeepsDigits(phone: string)
    requires AllDigits(phone)
    ensures CleanPhone(phone) == phone
  {
    if phone != [] {
      CleanPhoneKeepsDigits(phone[1..]);
    }
  }

  /** Position of the first `c` in `s`, or `|s|` when there is none. */
  function IndexOf(s: string, c: char): (i: nat)
    ensures i <= |s|
    ensures forall j :: 0 <= j < i ==> s[j] != c
    ensures i < |s| ==> s[i] == c
    ensures i == |s| <==> c !in s
  {
    if s == [] then 0
    else if s[0] == c then 0
    else 1 + IndexOf(s[1..], c)
  }

  /**
   * `api_key.split(':')[0]` and `api_key.split(':')[1]` when the key holds
   * a `':'`; otherwise the whole key and `''`.
   */
  function SplitApiKey(key: string): (cr: Credentials)
    ensures ':' !in cr.login && ':' !in cr.psw
    ensures ':' !in key ==> cr.login == key && cr.psw == ""
    ensures ':' in key ==>
      var n := |cr.login| + 1 + |cr.psw|;
      n <= |key| && key[..|cr.login|] == cr.login && key[|cr.login|] == ':' &&
      key[|cr.login| + 1..n] == cr.psw && (n == |key| || key[n] == ':')
  {
    var i := IndexOf(key, ':');
    if i == |key| then Credentials(key, "")
    else
      var rest := key[i + 1..];
      var j := IndexOf(rest, ':');
      assert key[i + 1..i + 1 + j] == rest[..j];
      Credentials(key[..i], rest[..j])
  }

  /** `IndexOf` is pinned down by its contract: a position before which `c` is absent and at which it occurs (or the end). */
  lemma IndexOfIs(s: string, c: char, k: nat)
    requires k <= |s| && (k < |s| ==> s[k] == c)
    requires forall j :: 0 <= j < k ==> s[j] != c
    ensures IndexOf(s, c) == k
  {
  }

  /**
   * Splitting `login:psw`, followed by nothing or by a further `:...`
   * tail, gives back login and psw.
   */
  lemma SplitApiKeyRoundTrip(login: string, psw: string, tail: string)
    requires ':' !in login && ':' !in psw
    requires tail == "" || tail[0] == ':'
    ensures SplitApiKey(login + ":" + psw + tail) == Credentials(login, psw)
  {
    var rest := psw + tail;
    var key := login + ":" + rest;
    assert login + ":" + psw + tail == key;
    assert key[..|login|] == login;
    IndexOfIs(key, ':', |login|);
    assert key[|login| + 1..] == rest;
    assert rest[..|psw|] == psw;
    IndexOfIs(rest, ':', |psw|);
  }

  // ---------------------------------------------------------------------
  // Senders

  /**
   * `send_email`: without an SMTP password (unset or empty) it reports
   * success without sending; otherwise the outcome is the SMTP exchange's.
   */
  function SendEmail(env: Env, to: string, code: string, smtp: Email -> SendResult): (r: SendResult)
    ensures !Truthy(env.smtpPassword) ==> r == Sent
    ensures Truthy(env.smtpPassword) ==> r == smtp(Email(to, code))
  {
    if !Truthy(env.smtpPassword) then Sent else smtp(Email(to, code))
  }

  /** The provider query `send_sms` builds for `phone` and `code` under `key`. */
  function SmsQueryFor(key: string, phone: string, code: string): (q: SmsQuery)
    ensures q.login == SplitApiKey(key).login && q.psw == SplitApiKey(key).psw
    ensures q.phones == CleanPhone(phone)
    ensures q.mes == SmsPrefix + code && q.fmt == SmsFormat
  {
    var cr := SplitApiKey(key);
    SmsQuery(cr.login, cr.psw, CleanPhone(phone), SmsPrefix + code, SmsFormat)
  }

  /**
   * `send_sms`: with the API key unset or equal to `'demo'` it reports
   * success without sending; otherwise the outcome is the provider's
   * answer to the query built from the key, the cleaned phone and the code.
   */
  function SendSms(env: Env, phone: string, code: string, provider: SmsQuery -> SendResult): (r: SendResult)
    ensures env.smsApiKey.GetOr(DemoApiKey) == DemoApiKey ==> r == Sent
    ensures env.smsApiKey.GetOr(DemoApiKey) != DemoApiKey ==>
      r == provider(SmsQueryFor(env.smsApiKey.value, phone, code))
  {
    var key := env.smsApiKey.GetOr(DemoApiKey);
    if key == DemoApiKey then Sent else provider(SmsQueryFor(key, phone, code))
  }

  /** Lines 43-46: `'email'` goes to the mailer, every other contact type to SMS. */
  function Deliver(contactType: string, contact: string, code: string, env: Env,
                   smtp: Email -> SendResult, provider: SmsQuery -> SendResult): SendResult
  {
    if contactType == "email" then SendEmail(env, contact, code, smtp)
    else SendSms(env, contact, code, provider)
  }

  /** An e-mail request never reaches the SMS provider, and any other request never reaches SMTP. */
  lemma DeliverRoutes(contactType: string, contact: string, code: string, env: Env,
                      smtp: Email -> SendResult, provider: SmsQuery -> SendResult,
                      smtp': Email -> SendResult, provider': SmsQuery -> SendResult)
    ensures contactType == "email" ==>
      Deliver(contactType, contact, code, env, smtp, provider) == Deliver(contactType, contact, code, env, smtp, provider')
    ensures contactType != "email" ==>
      Deliver(contactType, contact, code, env, smtp, provider) == Deliver(contactType, contact, code, env, smtp', provider)
  {
  }

  // ---------------------------------------------------------------------
  // The handler

  /** `handler(event, context)`. */
  function Handle(event: Event, env: Env, smtp: Email -> SendResult, provider: SmsQuery -> SendResult): (r: Response)
    ensures r.statusCode in {200, 400, 405, 500}
    ensures "Access-Control-Allow-Origin" in r.headers && r.headers["Access-Control-Allow-Origin"] == "*"
    ensures Method(event) == "OPTIONS" <==> r == Response(200, PreflightHeaders, Empty)
    ensures r.statusCode == 405 <==> Method(event) != "OPTIONS" && Method(event) != "POST"
    ensures r.statusCode == 405 ==> r == Response(405, JsonHeaders, ErrorBody("Method not allowed"))
    ensures r.statusCode == 400 <==> Method(event) == "POST" && event.body.Fields? && !HasRequiredFields(event.body)
    ensures r.statusCode == 400 ==> r == Response(400, JsonHeaders, ErrorBody("Missing required fields"))
    ensures Method(event) == "POST" && event.body.Malformed? ==>
      r == Response(500, JsonHeaders, ErrorBody(event.body.error))
    ensures Method(event) == "POST" && HasRequiredFields(event.body) ==>
      var b := event.body;
      var sent := Deliver(b.contactType.value, b.contact.value, b.code.value, env, smtp, provider);
      (r.statusCode == 200 <==> sent.Sent?) &&
      (sent.Sent? ==> r == Response(200, JsonHeaders, SuccessBody("Code sent successfully"))) &&
      (sent.Failed? ==> r == Response(500, JsonHeaders, ErrorBody(sent.error)))
  {
    var verb := Method(event);
    if verb == "OPTIONS" then
      Response(200, PreflightHeaders, Empty)
    else if verb != "POST" then
      Response(405, JsonHeaders, ErrorBody("Method not allowed"))
    else
      match event.body
      case Malformed(error) =>
        Response(500, JsonHeaders, ErrorBody(error))
      case Fields(contactType, contact, code) =>
        if !HasRequiredFields(event.body) then
          Response(400, JsonHeaders, ErrorBody("Missing required fields"))
        else
          match Deliver(contactType.value, contact.value, code.value, env, smtp, provider)
          case Sent => Response(200, JsonHeaders, SuccessBody("Code sent successfully"))
          case Failed(error) => Response(500, JsonHeaders, ErrorBody(error))
  }

  /**
   * A request turned away (a method other than OPTIONS and POST, or a POST
   * missing a field) gets the same answer whatever the environment and
   * the senders: no sender is consulted.
   */
  lemma RejectionSendsNothing(event: Event, env: Env, smtp: Email -> SendResult, provider: SmsQuery -> SendResult,
                              env': Env, smtp': Email -> SendResult, provider': SmsQuery -> SendResult)
    requires Handle(event, env, smtp, provider).statusCode in {400, 405}
    ensures Handle(event, env', smtp', provider') == Handle(event, env, smtp, provider)
  {
  }

  /**
   * With neither `SMTP_PASSWORD` nor `SMS_API_KEY` set, every POST that
   * carries the three fields is answered 200, whatever the network would do.
   */
  lemma DemoModeAlwaysSucceeds(event: Event, smtp: Email -> SendResult, provider: SmsQuery -> SendResult)
    requires Method(event) == "POST" && HasRequiredFields(event.body)
    ensures Handle(event, Env(None, None), smtp, provider).statusCode == 200
  {
  }
}
