/** The Facebook Messenger webhook of lib/facebook.js: the subscription
    handshake, the flattening of a batched callback into reply jobs, the
    Send API envelope and its outcome rule, and the signature-header check. */
module Facebook {
  import opened Js
  import opened Levels
  import opened Logger

  // ---------------------------------------------------------------------
  // Subscription handshake

  /** The query of a subscription request: `hub.mode`, `hub.verify_token`
      and `hub.challenge`, each undefined when absent. */
  datatype VerifyQuery = VerifyQuery(mode: Value, verifyToken: Value, challenge: Value)

  /** How a hook answers: `res.status(code).send(body)` or `res.sendStatus(code)`. */
  datatype HookReply = SendBody(status: int, body: Value) | SendStatus(status: int)

  /** A hook's answer together with what it logged. */
  datatype Answer = Answer(reply: HookReply, logs: seq<LogCall>)

  const FailedValidationWarning: string := "Failed validation. Make sure the validation tokens match."

  /** `verify(req, res)`: the challenge is echoed with status 200 exactly
      when the mode is `subscribe` and the token is (strictly) the configured
      one; any other request is refused with 403 and a warning. */
  function VerifyHook(q: VerifyQuery, configuredToken: Value): (a: Answer)
    ensures a.reply == SendBody(200, q.challenge) <==> q.mode == Str("subscribe") && q.verifyToken == configuredToken
    ensures a.reply != SendBody(200, q.challenge) ==>
      a.reply == SendStatus(403) && a.logs == [Warning(FailedValidationWarning)]
    ensures a.reply == SendBody(200, q.challenge) ==> a.logs == []
  {
    if q.mode == Str("subscribe") && q.verifyToken == configuredToken then
      Answer(SendBody(200, q.challenge), [])
    else
      Answer(SendStatus(403), [Warning(FailedValidationWarning)])
  }

  /** With no token configured, a subscribe request that carries no token
      either passes the handshake, since both sides are undefined. */
  lemma UnsetTokenAcceptsTokenless(challenge: Value)
    ensures VerifyHook(VerifyQuery(Str("subscribe"), Undefined, challenge), Undefined).reply
            == SendBody(200, challenge)
  {
  }

  // ---------------------------------------------------------------------
  // Batched callbacks

  /** One element of `pageEntry.messaging`. */
  datatype MessagingEvent = MessagingEvent(sender: Value, message: Value)

  /** One element of `data.entry`: the page, the time and its events. */
  datatype PageEntry = PageEntry(id: Value, time: Value, messaging: seq<MessagingEvent>)

  /** The body of a webhook callback; `objectKind` is its `object` property. */
  datatype WebhookBody = WebhookBody(objectKind: Value, entry: seq<PageEntry>)

  /** A message re-submitted through the application's own middleware:
      `req.runMiddleware(path, {method, body}, …)`, whose response data is
      then sent back to `recipient`. */
  datatype ReplyJob = ReplyJob(path: string, verb: string, body: Value, recipient: Value)

  /** The events of all entries, entry by entry and in order within each. */
  function AllEvents(entries: seq<PageEntry>): (events: seq<MessagingEvent>)
    ensures |entries| == 0 ==> events == []
  {
    if |entries| == 0 then []
    else AllEvents(entries[..|entries| - 1]) + entries[|entries| - 1].messaging
  }

  /** `if (messagingEvent.message)`. */
  predicate HasMessage(e: MessagingEvent) {
    Truthy(e.message)
  }

  /** The job for an event with a message: a POST to `/` whose body carries
      the text, the sender and the `isFB` flag, answered to the sender. */
  function JobFor(e: MessagingEvent): (job: ReplyJob)
    ensures job.path == "/" && job.verb == "post"
    ensures Get(job.body, "Body") == Get(e.message, "text")
    ensures Get(job.body, "From") == Get(e.sender, "id") == job.recipient
    ensures Get(job.body, "isFB") == Bool(true)
  {
    var senderId := Get(e.sender, "id");
    ReplyJob("/", "post", Obj(map["Body" := Get(e.message, "text"), "From" := senderId, "isFB" := Bool(true)]), senderId)
  }

  /** The jobs of a list of events: one per event with a message, in order. */
  function Jobs(events: seq<MessagingEvent>): seq<ReplyJob>
  {
    if |events| == 0 then []
    else
      var last := events[|events| - 1];
      Jobs(events[..|events| - 1]) + (if HasMessage(last) then [JobFor(last)] else [])
  }

  /** The warning for an event without a message; `stringify` stands for
      `JSON.stringify`. */
  function UnknownEventWarning(e: MessagingEvent, stringify: MessagingEvent -> string): (w: LogCall)
    ensures w.level == Warn
  {
    WarningWith("fbhook received unknown messagingEvent: ", Str(stringify(e)))
  }

  /** The warnings of a list of events: one per event without a message. */
  function Warnings(events: seq<MessagingEvent>, stringify: MessagingEvent -> string): seq<LogCall>
  {
    if |events| == 0 then []
    else
      var last := events[|events| - 1];
      Warnings(events[..|events| - 1], stringify)
        + (if HasMessage(last) then [] else [UnknownEventWarning(last, stringify)])
  }

  /** How the reply promises settle. */
  datatype Settlement = AllResolved | SomeRejected

  /** `Promise.all(requests).then(() => 200).catch(() => 200)`. */
  function FinalStatus(s: Settlement): (status: int)
    ensures status == 200
  {
    match s
    case AllResolved => 200
    case SomeRejected => 200
  }

  /** `update(req, res)`: a callback that is not about a page is refused
      with 403 and nothing else happens; otherwise every event is visited,
      entry by entry, an event with a message becomes a reply job and any
      other a warning, and the answer is 200 however the replies go
      (`delivered` says whether the reply to a job succeeds). */
  method Update(body: WebhookBody, stringify: MessagingEvent -> string, delivered: ReplyJob -> bool)
    returns (status: int, jobs: seq<ReplyJob>, warnings: seq<LogCall>)
    ensures body.objectKind != Str("page") ==> status == 403 && jobs == [] && warnings == []
    ensures body.objectKind == Str("page") ==>
      && status == 200
      && jobs == Jobs(AllEvents(body.entry))
      && warnings == Warnings(AllEvents(body.entry), stringify)
  {
    if body.objectKind != Str("page") {
      return 403, [], [];
    }
    jobs := [];
    warnings := [];
    for i := 0 to |body.entry|
      invariant jobs == Jobs(AllEvents(body.entry[..i]))
      invariant warnings == Warnings(AllEvents(body.entry[..i]), stringify)
    {
      jobs, warnings := VisitEntry(AllEvents(body.entry[..i]), body.entry[i].messaging, jobs, warnings, stringify);
      assert body.entry[..i + 1][..i] == body.entry[..i];
    }
    assert body.entry[..|body.entry|] == body.entry;
    var settlement := if forall job | job in jobs :: delivered(job) then AllResolved else SomeRejected;
    status := FinalStatus(settlement);
  }

  /** The inner `pageEntry.messaging.forEach`: the jobs and warnings so
      far, those of the events `before`, are extended with those of the
      entry's events. */
  method VisitEntry(ghost before: seq<MessagingEvent>, messaging: seq<MessagingEvent>,
                    jobs0: seq<ReplyJob>, warnings0: seq<LogCall>, stringify: MessagingEvent -> string)
    returns (jobs: seq<ReplyJob>, warnings: seq<LogCall>)
    requires jobs0 == Jobs(before) && warnings0 == Warnings(before, stringify)
    ensures jobs == Jobs(before + messaging) && warnings == Warnings(before + messaging, stringify)
  {
    jobs, warnings := jobs0, warnings0;
    assert before + messaging[..0] == before;
    for j := 0 to |messaging|
      invariant jobs == Jobs(before + messaging[..j])
      invariant warnings == Warnings(before + messaging[..j], stringify)
    {
      var e := messaging[j];
      assert before + messaging[..j + 1] == (before + messaging[..j]) + [e];
      if HasMessage(e) {
        jobs := jobs + [JobFor(e)];
      } else {
        warnings := warnings + [UnknownEventWarning(e, stringify)];
      }
    }
    assert messaging[..|messaging|] == messaging;
  }

  /** The jobs of two runs of events are those of each, in order. */
  lemma {:induction false} JobsAppend(a: seq<MessagingEvent>, b: seq<MessagingEvent>)
    ensures Jobs(a + b) == Jobs(a) + Jobs(b)
    decreases |b|
  {
    if |b| == 0 {
      assert a + b == a;
    } else {
      var n := |b| - 1;
      assert (a + b)[..|a + b| - 1] == a + b[..n];
      JobsAppend(a, b[..n]);
    }
  }

  /** The jobs of a batch are the jobs of each entry, entry after entry. */
  lemma {:induction false} JobsByEntry(entries: seq<PageEntry>, next: PageEntry)
    ensures Jobs(AllEvents(entries + [next])) == Jobs(AllEvents(entries)) + Jobs(next.messaging)
  {
    assert (entries + [next])[..|entries|] == entries;
    JobsAppend(AllEvents(entries), next.messaging);
  }

  /** The number of events that carry a message. */
  function CountWithMessage(events: seq<MessagingEvent>): (n: nat)
    ensures n <= |events|
  {
    if |events| == 0 then 0
    else CountWithMessage(events[..|events| - 1]) + (if HasMessage(events[|events| - 1]) then 1 else 0)
  }

  /** Every event is accounted for exactly once: there is one job per
      event with a message and one warning per event without one. */
  lemma {:induction false} EveryEventHandled(events: seq<MessagingEvent>, stringify: MessagingEvent -> string)
    ensures |Jobs(events)| == CountWithMessage(events)
    ensures |Warnings(events, stringify)| == |events| - CountWithMessage(events)
  {
    if |events| > 0 {
      EveryEventHandled(events[..|events| - 1], stringify);
    }
  }

  /** The warnings of two runs of events are those of each, in order. */
  lemma {:induction false} WarningsAppend(a: seq<MessagingEvent>, b: seq<MessagingEvent>, stringify: MessagingEvent -> string)
    ensures Warnings(a + b, stringify) == Warnings(a, stringify) + Warnings(b, stringify)
    decreases |b|
  {
    if |b| == 0 {
      assert a + b == a;
    } else {
      var n := |b| - 1;
      assert (a + b)[..|a + b| - 1] == a + b[..n];
      WarningsAppend(a, b[..n], stringify);
    }
  }

  /** The warnings are exactly those of the events without a message. */
  lemma {:induction false} WarningsAreUnknownEvents(events: seq<MessagingEvent>, stringify: MessagingEvent -> string, w: LogCall)
    ensures w in Warnings(events, stringify) <==>
      exists e :: e in events && !HasMessage(e) && w == UnknownEventWarning(e, stringify)
  {
    if |events| > 0 {
      var init := events[..|events| - 1];
      var last := events[|events| - 1];
      WarningsAreUnknownEvents(init, stringify, w);
      assert events == init + [last];
      if w in Warnings(events, stringify) && w !in Warnings(init, stringify) {
        assert !HasMessage(last) && w == UnknownEventWarning(last, stringify);
      }
      if e :| e in events && !HasMessage(e) && w == UnknownEventWarning(e, stringify) {
        if e in init {
          assert w in Warnings(init, stringify);
        } else {
          assert e == last;
        }
      }
    }
  }

  /** The events of a batch are exactly the events of its entries. */
  lemma {:induction false} AllEventsOfEntries(entries: seq<PageEntry>, e: MessagingEvent)
    ensures e in AllEvents(entries) <==> exists i :: 0 <= i < |entries| && e in entries[i].messaging
  {
    if |entries| > 0 {
      var n := |entries| - 1;
      AllEventsOfEntries(entries[..n], e);
      if e in AllEvents(entries) && e !in AllEvents(entries[..n]) {
        assert e in entries[n].messaging;
      }
      if i :| 0 <= i < |entries| && e in entries[i].messaging {
        if i < n {
          assert entries[..n][i] == entries[i];
        }
      }
    }
  }

  /** The events of a batch are those of its entries, entry after entry. */
  lemma {:induction false} AllEventsAppend(a: seq<PageEntry>, b: seq<PageEntry>)
    ensures AllEvents(a + b) == AllEvents(a) + AllEvents(b)
    decreases |b|
  {
    if |b| == 0 {
      assert a + b == a;
    } else {
      var n := |b| - 1;
      assert (a + b)[..|a + b| - 1] == a + b[..n];
      AllEventsAppend(a, b[..n]);
    }
  }

  /** The jobs are exactly the jobs of the events that carry a message. */
  lemma {:induction false} JobsAreMessages(events: seq<MessagingEvent>, job: ReplyJob)
    ensures job in Jobs(events) <==> exists e :: e in events && HasMessage(e) && job == JobFor(e)
  {
    if |events| > 0 {
      var init := events[..|events| - 1];
      var last := events[|events| - 1];
      JobsAreMessages(init, job);
      assert events == init + [last];
      if job in Jobs(events) && job !in Jobs(init) {
        assert HasMessage(last) && job == JobFor(last);
      }
      if e :| e in events && HasMessage(e) && job == JobFor(e) {
        if e in init {
          assert job in Jobs(init);
        } else {
          assert e == last;
        }
      }
    }
  }

  /** A batch whose events all lack a message yields no job. */
  lemma {:induction false} NoMessagesNoJobs(events: seq<MessagingEvent>)
    requires forall i :: 0 <= i < |events| ==> !HasMessage(events[i])
    ensures Jobs(events) == []
  {
    if |events| > 0 {
      NoMessagesNoJobs(events[..|events| - 1]);
    }
  }

  // ---------------------------------------------------------------------
  // Send API

  const SendApiUri: string := "https://graph.facebook.com/v2.6/me/messages"
  const DeveloperMetadata: string := "DEVELOPER_DEFINED_METADATA"
  const SendFailedPrefix: string := "Failed calling Send API: "
  const SendFailedMessage: string := "Failed calling Send API"

  /** The `messageData` envelope of `send(recipientId, messageText)`. */
  function MessageData(recipientId: Value, text: Value): (data: Value)
    ensures Get(Get(data, "recipient"), "id") == recipientId
    ensures Get(Get(data, "message"), "text") == text
    ensures Get(Get(data, "message"), "metadata") == Str(DeveloperMetadata)
  {
    Obj(map["recipient" := Obj(map["id" := recipientId]),
            "message" := Obj(map["text" := text, "metadata" := Str(DeveloperMetadata)])])
  }

  /** The POST that `send` makes: the Send API address, the page access
      token as query parameter and the envelope as JSON body. */
  datatype PostRequest = PostRequest(uri: string, accessToken: Value, json: Value)

  function SendRequest(recipientId: Value, text: Value, accessToken: Value): (p: PostRequest)
    ensures p.uri == SendApiUri && p.accessToken == accessToken
    ensures p.json == MessageData(recipientId, text)
  {
    PostRequest(SendApiUri, accessToken, MessageData(recipientId, text))
  }

  /** What the HTTP client reports back: the transport error's message,
      if any, and the response, if one arrived. */
  datatype ApiResponse = ApiResponse(statusCode: int, statusMessage: string)
  datatype TransportReport = TransportReport(error: Option<string>, response: Option<ApiResponse>)

  /** How the `send` promise settles. */
  datatype SendOutcome = Resolved(value: string) | Rejected(reason: Value)

  datatype SendResult = SendResult(outcome: SendOutcome, logs: seq<LogCall>)

  /** The client's callback in `send`: success exactly when there is no
      error and the status is 200; on failure, one error log for the
      transport error and one for the response, whichever are present. */
  function SendSettles(report: TransportReport): (r: SendResult)
    requires report.error.Some? || report.response.Some?
    ensures r.outcome.Resolved? <==> report.error.None? && report.response.value.statusCode == 200
    ensures r.outcome.Resolved? ==> r.outcome.value == "success" && r.logs == []
    ensures r.outcome.Rejected? ==>
      && r.outcome.reason == Err(SendFailedMessage)
      && |r.logs| == (if report.error.Some? then 1 else 0) + (if report.response.Some? then 1 else 0)
      && (forall i :: 0 <= i < |r.logs| ==> r.logs[i].level == Error && StartsWith(r.logs[i].message, SendFailedPrefix))
  {
    if report.error.Some? || report.response.value.statusCode != 200 then
      var errorLog :=
        if report.error.Some? then [LogCall(Error, SendFailedPrefix + report.error.value, Obj(map[]))] else [];
      var responseLog :=
        if report.response.Some? then
          var resp := report.response.value;
          [LogCall(Error, SendFailedPrefix + DecimalText(resp.statusCode) + " - " + resp.statusMessage, Obj(map[]))]
        else [];
      assert StartsWith(SendFailedPrefix + DecimalText(0), SendFailedPrefix);
      SendResult(Rejected(Err(SendFailedMessage)), errorLog + responseLog)
    else
      SendResult(Resolved("success"), [])
  }

  // ---------------------------------------------------------------------
  // Signature check

  const MissingSignatureError: string := "Couldn't validate the signature."
  const BadSignatureError: string := "Couldn't validate the request signature."

  /** `verifyFBRequestSignature` either returns or throws an error. */
  datatype Verdict = Accepted | Thrown(message: string)

  /** `verifyFBRequestSignature(req, res, buf)`: the `x-hub-signature`
      header is split on `=` and its second piece compared with `expected`,
      the hex HMAC-SHA1 of the raw body under the app secret. */
  function VerifySignature(header: Option<string>, expected: string): (v: Verdict)
    ensures header.None? || header == Some("") ==> v == Thrown(MissingSignatureError)
    ensures v == Accepted <==>
      header.Some? && header.value != "" && |Split(header.value, '=')| >= 2 && Split(header.value, '=')[1] == expected
    ensures v != Accepted && header.Some? && header.value != "" ==> v == Thrown(BadSignatureError)
  {
    if header.None? || header.value == "" then Thrown(MissingSignatureError)
    else
      var elements := Split(header.value, '=');
      if |elements| < 2 || elements[1] != expected then Thrown(BadSignatureError)
      else Accepted
  }

  /** The header Facebook sends: the method name, `=`, the hex digest. */
  function SignatureHeader(hash: string): string {
    "sha1=" + hash
  }

  /** A header made of a method name, `=`, a hash and possibly more
      `=`-separated text is accepted exactly when the hash is the expected
      digest; the method name is never looked at. */
  lemma {:induction false} SignatureAcceptedExactly(methodName: string, hash: string, more: Option<string>, expected: string)
    requires '=' !in methodName && '=' !in hash
    ensures var header := methodName + "=" + hash + (if more.Some? then "=" + more.value else "");
      VerifySignature(Some(header), expected) == Accepted <==> hash == expected
  {
    var tail := hash + (if more.Some? then "=" + more.value else "");
    var header := methodName + "=" + hash + (if more.Some? then "=" + more.value else "");
    assert header == methodName + ['='] + tail;
    SplitAtFirst(methodName, '=', tail);
    if more.Some? {
      assert tail == hash + ['='] + more.value;
      SplitAtFirst(hash, '=', more.value);
    } else {
      assert tail == hash;
      SplitWithout(hash, '=');
    }
  }

  /** A request signed with the expected digest, as Facebook signs it, is
      accepted; any other digest without `=` in it is refused. */
  lemma GenuineSignatureAccepted(hash: string, expected: string)
    requires '=' !in hash
    ensures VerifySignature(Some(SignatureHeader(hash)), expected) == Accepted <==> hash == expected
  {
    assert "sha1" + "=" + hash + "" == SignatureHeader(hash);
    SignatureAcceptedExactly("sha1", hash, None, expected);
  }

  /** A header without `=` has no second piece and is always refused. */
  lemma {:induction false} NoSeparatorRejected(header: string, expected: string)
    requires header != "" && '=' !in header
    ensures VerifySignature(Some(header), expected) == Thrown(BadSignatureError)
  {
    SplitWithout(header, '=');
  }
}
