/** Delivering a futures order: to the user's device if one is online, else to the forward URL. */
module NinjaTrader {
  import opened Prelude
  import opened Trade
  import opened BridgeProtocol
  import opened BridgeTheorems

  datatype OrderBody = OrderBody(id: OrderId, symbol: string, buy: bool, quantity: int, dryRun: bool)

  /** What a POST came back with. `isObject`: the reply is no JSON, or a JSON object; `reported`: the id in it. */
  datatype Http = Unreachable | Replied(status: int, isObject: bool, reported: OrderId)

  datatype OrderResult = OrderResult(success: bool, orderId: OrderId)

  /** `result` is None when the adapter raised. */
  datatype Delivery = Delivery(result: Option<OrderResult>, pushed: bool, posted: bool)

  // ----- what the HTTP client refuses to send -----

  /**
   * Where orders are forwarded to. `restAccepted`: the client accepts whatever else it looks
   * at before sending, such as the spelling of the host name.
   */
  datatype Endpoint = Endpoint(url: string, secret: string, restAccepted: bool)

  const MAX_URL_LENGTH: nat := 65536
  const SCHEME: string := "https://"

  function UpTo(text: string, stops: set<char>): string {
    if text == "" || text[0] in stops then "" else [text[0]] + UpTo(text[1..], stops)
  }

  function AfterColon(text: string): string {
    if text == "" then "" else if text[0] == ':' then text[1..] else AfterColon(text[1..])
  }

  /** The port of a plain `host:port` authority; bracketed hosts and user names are left to the client. */
  function PortOf(url: string): string {
    var authority := if SCHEME <= url then UpTo(url[|SCHEME|..], {'/', '?', '#'}) else "";
    if '[' in authority || '@' in authority then "" else AfterColon(authority)
  }

  predicate IsDigit(c: char) {
    '0' <= c <= '9'
  }

  /** Digits, with single underscores between them. */
  predicate IsDigits(text: string) {
    && text != "" && IsDigit(text[0]) && IsDigit(text[|text| - 1])
    && (forall i :: 0 <= i < |text| ==> IsDigit(text[i]) || text[i] == '_')
    && forall i :: 0 <= i < |text| - 1 ==> text[i] != '_' || text[i + 1] != '_'
  }

  /** What `int` takes: digits, a sign before them, and blanks around it all. */
  predicate IsIntText(text: string) {
    var inner := Strip(text);
    IsDigits(if inner != "" && (inner[0] == '+' || inner[0] == '-') then inner[1..] else inner)
  }

  /** No port, or a number; one outside ASCII is left to the client. */
  predicate PortIsNumber(port: string) {
    port == "" || !IsAscii(port) || IsIntText(port)
  }

  predicate HasControl(text: string) {
    exists i :: 0 <= i < |text| && (text[i] < ' ' || text[i] as int == 127)
  }

  predicate IsAscii(text: string) {
    forall i :: 0 <= i < |text| ==> text[i] as int < 128
  }

  predicate UrlParses(to: Endpoint) {
    |to.url| <= MAX_URL_LENGTH && !HasControl(to.url) && PortIsNumber(PortOf(to.url))
  }

  /** The header is only sent for a nonblank secret, and is encoded as ASCII. */
  predicate Sendable(to: Endpoint) {
    UrlParses(to) && IsAscii(to.secret) && to.restAccepted
  }

  predicate Accepted(http: Http) {
    http.Replied? && 200 <= http.status < 300
  }

  function PushOrderId(push: PushResult, id: OrderId): OrderId {
    match push
    case DuplicateSkipped(order) => order
    case Acknowledged(order, _) => order
    case _ => id
  }

  /** Reading the reply. Marking a dry run fails when the reply is JSON but not an object. */
  function Forwarded(body: OrderBody, http: Http): Option<OrderResult> {
    if http.Unreachable? then Some(OrderResult(false, ""))
    else if body.dryRun && !http.isObject then None
    else Some(OrderResult(Accepted(http), if http.isObject && http.reported != "" then http.reported else body.id))
  }

  /** Which transports are used and what counts: a confirmed push, else one POST if there is a URL. */
  function Delivered(to: Endpoint, user: UserId, body: OrderBody, online: bool, push: PushResult, onlineAfter: bool, http: Http): Delivery {
    var pushed := user != "" && online;
    var confirmed := pushed && Success(push);
    if confirmed then Delivery(Some(OrderResult(true, PushOrderId(push, body.id))), true, false)
    else if to.url != "" then
      if Sendable(to) then Delivery(Forwarded(body, http), pushed, true) else Delivery(None, pushed, false)
    else
      var known := if pushed && !push.NoDevice? then PushOrderId(push, body.id)
                   else if user != "" && onlineAfter then body.id else "";
      Delivery(Some(OrderResult(false, known)), pushed, false)
  }

  /** `push` is what the registry answers if asked; `onlineAfter` a second look at it. */
  method ExecuteFuturesOrder(to: Endpoint, user: UserId, body: OrderBody, online: bool, push: PushResult, onlineAfter: bool, http: Http)
    returns (d: Delivery)
    ensures d == Delivered(to, user, body, online, push, onlineAfter, http)
  {
    var pushed := false;
    if user != "" {
      if online {
        pushed := true;
        if !push.NoDevice? {
          var result := OrderResult(Success(push), PushOrderId(push, body.id));
          if result.success || to.url == "" {
            return Delivery(Some(result), true, false);
          }
        }
      }
    }
    if to.url == "" {
      if user != "" && onlineAfter {
        return Delivery(Some(OrderResult(false, body.id)), pushed, false);
      }
      return Delivery(Some(OrderResult(false, "")), pushed, false);
    }
    if !Sendable(to) {
      return Delivery(None, pushed, false);
    }
    d := Delivery(Forwarded(body, http), pushed, true);
  }

  /**
   * What is sent where, and what is reported, by cases: a push that was confirmed, no URL to
   * turn to, nobody to be reached there, and a reply.
   */
  lemma ReportIs(to: Endpoint, user: UserId, body: OrderBody, online: bool, push: PushResult, onlineAfter: bool, http: Http)
    ensures var d := Delivered(to, user, body, online, push, onlineAfter, http);
            var reached := user != "" && online;
            var confirmed := reached && (push.DuplicateSkipped? || (push.Acknowledged? && push.ok));
            && (d.pushed <==> reached) && (d.posted <==> !confirmed && to.url != "" && Sendable(to))
            && (confirmed ==> d.result == Some(OrderResult(true, push.order)))
            && (d.posted && http.Unreachable? ==> d.result == Some(OrderResult(false, "")))
            && (d.posted && http.Replied? && (http.isObject || !body.dryRun) ==>
                  && d.result.Some? && (d.result.value.success <==> 200 <= http.status <= 299)
                  && d.result.value.orderId == if !http.isObject || http.reported == "" then body.id else http.reported)
            && (!confirmed && to.url == "" ==> d.result.Some? && !d.result.value.success)
            && (!confirmed && to.url == "" && reached && push.Acknowledged? ==> d.result.value.orderId == push.order)
            && (!confirmed && to.url == "" && reached && (push.SendFailure? || push.NoAck?) ==> d.result.value.orderId == body.id)
            && (!confirmed && to.url == "" && (!reached || push.NoDevice?) ==>
                  d.result.value.orderId == if user != "" && onlineAfter then body.id else "")
  {
  }

  /**
   * A reported success, together with the bridge: the POST was accepted, or the order's own
   * device confirmed it, or some device had confirmed the same id before. Without a POST the
   * order keeps its id.
   */
  lemma SuccessIsDelivered(s: Bridge, p: PushId, to: Endpoint, body: OrderBody, onlineAfter: bool, http: Http)
    requires Reachable(s) && p in s.pushes && s.pushes[p].phase.Done?
    requires s.pushes[p].order == body.id && s.pushes[p].user != ""
    ensures var d := Delivered(to, s.pushes[p].user, body, true, s.pushes[p].phase.result, onlineAfter, http);
            d.result.Some? && d.result.value.success ==>
              if d.posted then Accepted(http)
              else && d.result.value.orderId == body.id
                   && exists q :: ConfirmedByItsDevice(s, q) && s.pushes[q].order == body.id
  {
    if Success(s.pushes[p].phase.result) {
      if s.pushes[p].sent {
        SuccessIsAttributed(s, p);
      } else {
        SkippedRepeatsConfirmed(s, p);
      }
    }
  }

  /**
   * An order that its own device acknowledged is posted as well if and only if there is
   * somewhere to post it and the ack came to nothing: the wait for it had timed out, the send
   * raised after all, or the device had refused the order before.
   */
  lemma AckedIsPostedIff(s: Bridge, p: PushId, to: Endpoint, body: OrderBody, onlineAfter: bool, http: Http)
    requires Reachable(s) && AckedByItsDevice(s, p) && s.pushes[p].phase.Done?
    requires s.pushes[p].order == body.id && s.pushes[p].user != ""
    ensures var result := s.pushes[p].phase.result;
            Delivered(to, s.pushes[p].user, body, true, result, onlineAfter, http).posted <==>
              && to.url != "" && Sendable(to)
              && (result == NoAck || result == SendFailure || result == Acknowledged(body.id, false))
  {
    AckedResults(s, p);
  }

  /** Such an order: acknowledged by the desk as the wait for it timed out, and posted too. */
  lemma LateAckIsPostedToo(to: Endpoint, body: OrderBody, onlineAfter: bool, http: Http) returns (s: Bridge)
    requires to.url != "" && Sendable(to) && body.id == "x"
    ensures Reachable(s) && ConfirmedByItsDevice(s, 0) && s.pushes[0].user == "alice" && s.pushes[0].order == body.id
    ensures s.pushes[0].phase.Done? && Delivered(to, "alice", body, true, s.pushes[0].phase.result, onlineAfter, http).posted
  {
    s := AliceIsAckedTooLate();
    AckedIsPostedIff(s, 0, to, body, onlineAfter, http);
  }

  /** Another: acknowledged while its send was awaited, which then raised. */
  lemma AckBeforeFailureIsPostedToo(to: Endpoint, body: OrderBody, onlineAfter: bool, http: Http) returns (s: Bridge)
    requires to.url != "" && Sendable(to) && body.id == "x"
    ensures Reachable(s) && AckedByItsDevice(s, 0) && s.pushes[0].user == "alice" && s.pushes[0].order == body.id
    ensures s.pushes[0].phase.Done? && Delivered(to, "alice", body, true, s.pushes[0].phase.result, onlineAfter, http).posted
  {
    s := AliceIsAckedButSendFails();
    AckedIsPostedIff(s, 0, to, body, onlineAfter, http);
  }

  /**
   * The adapter raises exactly when it has to post and either the client refuses the URL or
   * the secret, so that nothing is sent, or a dry run that was sent is answered with JSON
   * that is not an object.
   */
  lemma RaisesIff(to: Endpoint, user: UserId, body: OrderBody, online: bool, push: PushResult, onlineAfter: bool, http: Http)
    ensures var d := Delivered(to, user, body, online, push, onlineAfter, http);
            && (d.result.None? <==>
                  && to.url != "" && !(user != "" && online && Success(push))
                  && (!UrlParses(to) || !IsAscii(to.secret) || !to.restAccepted || (body.dryRun && http.Replied? && !http.isObject)))
            && (d.result.None? ==> (d.posted <==> Sendable(to)))
  {
  }

  lemma {:induction false} UpToStop(head: string, stop: char, rest: string, stops: set<char>)
    requires stop in stops && forall i :: 0 <= i < |head| ==> head[i] !in stops
    ensures UpTo(head + [stop] + rest, stops) == head
  {
    var text := head + [stop] + rest;
    if head != "" {
      UpToStop(head[1..], stop, rest, stops);
      assert text[1..] == head[1..] + [stop] + rest;
    }
  }

  lemma {:induction false} AfterFirstColon(host: string, port: string)
    requires ':' !in host
    ensures AfterColon(host + ":" + port) == port
  {
    var text := host + ":" + port;
    if host == "" {
      assert text[1..] == port;
    } else {
      AfterFirstColon(host[1..], port);
      assert text[1..] == host[1..] + ":" + port;
    }
  }

  predicate PlainText(text: string) {
    forall c :: c in text ==> c !in {'/', '?', '#', '@', '[', ':'}
  }

  lemma PortOfPlainUrl(host: string, port: string, path: string)
    requires PlainText(host) && PlainText(port)
    ensures PortOf(SCHEME + (host + ":" + port) + "/" + path) == port
  {
    var authority := host + ":" + port;
    var url := SCHEME + authority + "/" + path;
    assert url[|SCHEME|..] == authority + ['/'] + path;
    forall i | 0 <= i < |authority| ensures authority[i] !in {'/', '?', '#', '@', '['} {
      assert authority[i] in host || authority[i] == ':' || authority[i] in port;
    }
    UpToStop(authority, '/', path, {'/', '?', '#'});
    AfterFirstColon(host, port);
  }

  lemma StripKeepsCore(text: string)
    requires text != "" && !IsSpace(text[0]) && !IsSpace(text[|text| - 1])
    ensures Strip(text) == text
  {
  }

  lemma SignedDigitsAreInt(text: string, digits: string)
    requires digits != "" && forall i :: 0 <= i < |digits| ==> '0' <= digits[i] <= '9'
    requires text == digits || text == "+" + digits || text == "-" + digits
    ensures IsIntText(text) && IsIntText(" " + text)
  {
    StripKeepsCore(text);
    assert (" " + text)[1..] == text;
    assert StripLeft(" " + text) == text;
    assert text != digits ==> text[1..] == digits;
  }

  /** Every decimal port is a number, with or without a sign and a blank before it. */
  lemma DecimalPortIsNumber(n: nat)
    ensures PortIsNumber(NatText(n)) && PortIsNumber("+" + NatText(n)) && PortIsNumber("-" + NatText(n))
    ensures PortIsNumber(" " + NatText(n))
  {
    NatTextReadsBack(n);
    SignedDigitsAreInt(NatText(n), NatText(n));
    SignedDigitsAreInt("+" + NatText(n), NatText(n));
    SignedDigitsAreInt("-" + NatText(n), NatText(n));
  }

  /** Underscores stand between digits only, one at a time. */
  lemma UnderscoresJoinDigits(left: nat, right: nat)
    ensures IsDigits(NatText(left) + "_" + NatText(right))
    ensures !IsDigits("_" + NatText(left)) && !IsDigits(NatText(left) + "_") && !IsDigits(NatText(left) + "__" + NatText(right))
  {
    NatTextReadsBack(left);
    NatTextReadsBack(right);
    var twice := NatText(left) + "__" + NatText(right);
    assert twice[|NatText(left)|] == '_' && twice[|NatText(left)| + 1] == '_';
  }

  /** One that starts with a letter is none. */
  lemma LetterPortIsNoNumber(port: string)
    requires port != "" && IsAscii(port) && 'A' <= port[0] <= 'z'
    ensures !PortIsNumber(port)
  {
    var right := StripRightDropsBlanks(port);
    assert StripLeft(port) == port;
    assert port == Strip(port) + right;
    if Strip(port) != "" {
      assert Strip(port)[0] == port[0];
    }
  }

  /** Bracketed hosts and user names are left to the client, and so is a port outside ASCII. */
  lemma LeftToTheClient(authority: string, path: string, port: string)
    requires '[' in authority || '@' in authority
    requires forall c :: c in authority ==> c !in {'/', '?', '#'}
    ensures PortOf(SCHEME + authority + "/" + path) == ""
    ensures !IsAscii(port) ==> PortIsNumber(port)
  {
    var url := SCHEME + authority + "/" + path;
    assert url[|SCHEME|..] == authority + ['/'] + path;
    forall i | 0 <= i < |authority| ensures authority[i] !in {'/', '?', '#'} {
      assert authority[i] in authority;
    }
    UpToStop(authority, '/', path, {'/', '?', '#'});
  }

  /** The client refuses a URL that is too long or holds a control character, whatever its port. */
  lemma RefusedUrls(to: Endpoint)
    ensures |to.url| > 65536 || (exists i :: 0 <= i < |to.url| && (to.url[i] as int < 32 || to.url[i] as int == 127)) ==> !UrlParses(to)
    ensures (exists i :: 0 <= i < |to.secret| && to.secret[i] as int >= 128) ==> !Sendable(to)
    ensures UrlParses(to) && to.secret == "" && to.restAccepted ==> Sendable(to)
  {
  }

  /**
   * A port that is no number passes for a URL when it is stored, as only the scheme is
   * looked at then, and raises at every order that has to be posted, live or dry.
   */
  lemma BadPortRaises(host: string, port: string, path: string, secret: string, user: UserId, body: OrderBody, push: PushResult,
                      onlineAfter: bool, http: Http)
    requires PlainText(host) && PlainText(port) && !PortIsNumber(port)
    ensures var url := SCHEME + (host + ":" + port) + "/" + path;
            && SCHEME <= url
            && Delivered(Endpoint(url, secret, true), user, body, false, push, onlineAfter, http) == Delivery(None, false, false)
  {
    PortOfPlainUrl(host, port, path);
  }

  lemma LetterPortRaises(secret: string, user: UserId, body: OrderBody, push: PushResult, onlineAfter: bool, http: Http)
    ensures Delivered(Endpoint("https://host:abc/hook", secret, true), user, body, false, push, onlineAfter, http)
         == Delivery(None, false, false)
  {
    LetterPortIsNoNumber("abc");
    BadPortRaises("host", "abc", "hook", secret, user, body, push, onlineAfter, http);
    assert SCHEME + ("host" + ":" + "abc") + "/" + "hook" == "https://host:abc/hook";
  }

  /** So does a secret with a letter outside ASCII. */
  lemma AccentedSecretRaises(url: string, user: UserId, body: OrderBody, push: PushResult, onlineAfter: bool, http: Http)
    requires url != ""
    ensures Delivered(Endpoint(url, "cl\U{E9}", true), user, body, false, push, onlineAfter, http) == Delivery(None, false, false)
  {
    assert "cl\U{E9}"[2] as int == 0xE9;
  }

  /** And a dry run whose reply is a JSON list, after it was sent. */
  lemma ListReplyRaises(to: Endpoint, user: UserId, body: OrderBody, push: PushResult, onlineAfter: bool)
    requires to.url != "" && Sendable(to) && body.dryRun
    ensures Delivered(to, user, body, false, push, onlineAfter, Replied(200, false, "")) == Delivery(None, false, true)
  {
  }

  // ----- symbols -----

  const CONTINUOUS_ROOTS: set<string> := {"ES", "MES", "NQ", "MNQ"}

  function FuturesSymbol(symbol: string): string {
    if Upper(symbol) in CONTINUOUS_ROOTS then Upper(symbol) + "1!" else Upper(symbol)
  }

  lemma {:induction false} UpperIsPointwise(s: string)
    ensures |Upper(s)| == |s| && forall i :: 0 <= i < |s| ==> Upper(s)[i] == UpperChar(s[i])
  {
    if s != "" {
      UpperIsPointwise(s[1..]);
    }
  }

  lemma UpperOfUpper(s: string)
    requires forall i :: 0 <= i < |s| ==> UpperChar(s[i]) == s[i]
    ensures Upper(s) == s
  {
    UpperIsPointwise(s);
  }

  /** The same letters, up to case: `upper` has them large, and `s` as they were typed. */
  ghost predicate SameLetters(s: string, upper: string) {
    |s| == |upper| && forall i :: 0 <= i < |s| ==> s[i] == upper[i] || (97 <= s[i] as int <= 122 && s[i] as int == upper[i] as int + 32)
  }

  /** The four index roots, however they are typed, become the continuous contract, and nothing else does. */
  lemma FuturesSymbolIs(symbol: string, root: string)
    requires root in {"ES", "MES", "NQ", "MNQ"}
    ensures SameLetters(symbol, root) ==> FuturesSymbol(symbol) == root + "1!"
    ensures SameLetters(symbol, Upper(symbol))
    ensures !SameLetters(symbol, "ES") && !SameLetters(symbol, "MES") && !SameLetters(symbol, "NQ") && !SameLetters(symbol, "MNQ")
            ==> FuturesSymbol(symbol) == Upper(symbol)
  {
    UpperIsPointwise(symbol);
    if SameLetters(symbol, root) {
      assert Upper(symbol) == root;
    }
  }

  /** Parsing and validation both map the symbol; the second time changes nothing. */
  lemma FuturesSymbolTwice(symbol: string)
    ensures FuturesSymbol(FuturesSymbol(symbol)) == FuturesSymbol(symbol)
  {
    UpperIsPointwise(symbol);
    UpperOfUpper(FuturesSymbol(symbol));
    if Upper(symbol) in CONTINUOUS_ROOTS {
      var mapped := Upper(symbol) + "1!";
      assert mapped[|mapped| - 1] == '!';
    }
  }
}
