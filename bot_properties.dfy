/** What the handler promises, stated over the specification functions of module Bot. */
module BotProperties {
  import opened Wrappers
  import opened JsValues
  import opened JsStrings
  import opened Bot

  /** A request that gets as far as the `switch`: it parses, has a headers object without the retry key, and has an event. */
  predicate Dispatched(data: Request) {
    && data.body.Parsed?
    && HasProperty(RetryHeader, data.headers) == Some(false)
    && !Nullish(Val(data.body.value))
    && !Nullish(Get(Val(data.body.value), "event"))
  }

  function Payload(data: Request): (r: JsVal)
    requires data.body.Parsed?
  {
    Val(data.body.value)
  }

  function Event(data: Request): (r: JsVal)
    requires Dispatched(data)
  {
    Get(Payload(data), "event")
  }

  function EventType(data: Request): (r: JsVal)
    requires Dispatched(data)
  {
    Get(Event(data), "type")
  }

  // ---------------------------------------------------------------- parseMessage

  /** A text without a space is its own command. */
  lemma ParseMessageWhole(message: string)
    requires ' ' !in message
    ensures ParseMessage(message) == message
  {
    SplitWord(message);
  }

  /** The command is the text between the first space and the next space, or the end. */
  lemma ParseMessageSecondField(mention: string, command: string, rest: string)
    requires ' ' !in mention && ' ' !in command
    requires rest == [] || rest[0] == ' '
    ensures ParseMessage(mention + " " + command + rest) == command
  {
    assert mention + " " + command + rest == mention + " " + (command + rest);
    SplitWordThen(mention, command + rest);
    if rest == [] {
      assert command + rest == command;
      SplitWord(command);
    } else {
      assert command + rest == command + " " + rest[1..];
      SplitWordThen(command, rest[1..]);
    }
  }

  /** With a space in the text the command is its second field; it never holds a space itself. */
  lemma ParseMessageSpaced(message: string)
    requires ' ' in message
    ensures |Split(message)| >= 2 && ParseMessage(message) == Split(message)[1]
    ensures ' ' !in ParseMessage(message)
  {
  }

  /** The examples: a command after the mention, a bare mention, and two spaces in a row. */
  lemma ParseMessageExamples()
    ensures ParseMessage("<@B> test now") == "test"
    ensures ParseMessage("<@B>") == "<@B>"
    ensures ParseMessage("<@B>  x") == ""
  {
    ParseMessageSecondField("<@B>", "test", " now");
    assert "<@B>" + " " + "test" + " now" == "<@B> test now";
    ParseMessageWhole("<@B>");
    ParseMessageSecondField("<@B>", "", " x");
    assert "<@B>" + " " + "" + " x" == "<@B>  x";
  }

  // ---------------------------------------------------------------- run

  /** Only a body that does not parse makes run reject; every other request gets exactly one response. */
  lemma RejectsOnlyMalformed(cfg: Config, data: Request, rejects: (nat, Post) -> bool, base: nat)
    ensures RunSpec(cfg, data, rejects, base).0.Rejected? <==> data.body.Malformed?
    ensures data.body.Malformed? ==> RunSpec(cfg, data, rejects, base).1 == []
  {
  }

  /** A redelivery carrying the retry header is answered 200 with an empty object and posts nothing. */
  lemma RetryIsIgnored(cfg: Config, data: Request, rejects: (nat, Post) -> bool, base: nat)
    requires data.body.Parsed? && HasProperty(RetryHeader, data.headers) == Some(true)
    ensures RunSpec(cfg, data, rejects, base) == (Resolved(Response(200, EmptyObject, NoRetryHeaders)), [])
  {
  }

  /**
   * A parsed request that never reaches the `switch` without being a retry is
   * answered 500 with a TypeError and posts nothing: either its headers are not
   * an object (`in` throws), or its payload is nullish or has no event
   * (reading `dataObject.event.type` throws).
   */
  lemma UndispatchedThrows(cfg: Config, data: Request, rejects: (nat, Post) -> bool, base: nat)
    requires data.body.Parsed? && HasProperty(RetryHeader, data.headers) != Some(true) && !Dispatched(data)
    ensures RunSpec(cfg, data, rejects, base) == (Resolved(Response(500, Stringified(TypeError), NoRetryHeaders)), [])
  {
  }

  /**
   * Every response carries the no-retry header, has status 200, 400 or 500,
   * and has status 500 exactly when its body is a caught error.
   */
  lemma ResponseShape(cfg: Config, data: Request, rejects: (nat, Post) -> bool, base: nat)
    requires data.body.Parsed?
    ensures var o := RunSpec(cfg, data, rejects, base).0;
      && o.Resolved?
      && o.response.headers == NoRetryHeaders
      && o.response.statusCode in {200, 400, 500}
      && (o.response.statusCode == 500 <==> o.response.body.Stringified?)
  {
  }

  /** The handshake echoes the challenge exactly when the token matches, and otherwise throws `Verification failed`. */
  lemma VerifyCallEchoesOnMatch(cfg: Config, data: JsVal)
    requires !Nullish(data)
    ensures VerifyCall(cfg, data).Ok? <==> Get(data, "token") == EnvValue(cfg.verificationToken)
    ensures VerifyCall(cfg, data).Ok? ==> VerifyCall(cfg, data).value == Get(data, "challenge")
    ensures VerifyCall(cfg, data).Err? ==> VerifyCall(cfg, data).error == VerificationFailed
  {
  }

  /** With no verification token configured, a handshake without a token passes: `undefined === undefined`. */
  lemma UnsetTokenAdmitsTokenless(cfg: Config, data: JsVal)
    requires cfg.verificationToken.None?
    requires !Nullish(data) && Get(data, "token") == Undefined
    ensures VerifyCall(cfg, data) == Ok(Get(data, "challenge"))
  {
  }

  /** A url_verification event answers 200 with the challenge on a matching token, 500 otherwise, and posts nothing. */
  lemma UrlVerification(cfg: Config, data: Request, rejects: (nat, Post) -> bool, base: nat)
    requires Dispatched(data) && EventType(data) == Val(JStr("url_verification"))
    ensures var (o, posts) := RunSpec(cfg, data, rejects, base);
      && posts == []
      && (Get(Payload(data), "token") == EnvValue(cfg.verificationToken) ==>
            o == Resolved(Response(200, Value(Get(Payload(data), "challenge")), NoRetryHeaders)))
      && (Get(Payload(data), "token") != EnvValue(cfg.verificationToken) ==>
            o == Resolved(Response(500, Stringified(VerificationFailed), NoRetryHeaders)))
  {
  }

  /** An event of any other type answers 400 `Empty request` and posts nothing. */
  lemma UnknownEventType(cfg: Config, data: Request, rejects: (nat, Post) -> bool, base: nat)
    requires Dispatched(data)
    requires EventType(data) !in {Val(JStr("url_verification")), Val(JStr("app_mention")), Val(JStr("team_join"))}
    ensures RunSpec(cfg, data, rejects, base) == (Resolved(Response(400, EmptyRequest, NoRetryHeaders)), [])
  {
  }

  /** A mention posted by a bot is acknowledged and answered with no post. */
  lemma BotMentionIgnored(cfg: Config, data: Request, rejects: (nat, Post) -> bool, base: nat)
    requires Dispatched(data) && EventType(data) == Val(JStr("app_mention"))
    requires Truthy(Get(Event(data), "bot_id"))
    ensures RunSpec(cfg, data, rejects, base) == (Resolved(Response(200, OkTrue, NoRetryHeaders)), [])
  {
  }

  /**
   * A mention from a person posts its command's replies in order, up to the
   * first send that is not delivered. With every one delivered, every reply
   * is posted and the answer is 200 `{ok: true}`.
   */
  lemma MentionReplies(cfg: Config, data: Request, rejects: (nat, Post) -> bool, base: nat, text: string)
    requires Dispatched(data) && EventType(data) == Val(JStr("app_mention"))
    requires !Truthy(Get(Event(data), "bot_id")) && Get(Event(data), "text") == Val(JStr(text))
    ensures var script := Replies(cfg, ParseMessage(text), Get(Event(data), "channel"), Get(Event(data), "user"));
      var (o, posts) := RunSpec(cfg, data, rejects, base);
      && |posts| <= |script| && posts == script[..|posts|]
      && ((forall k :: 0 <= k < |script| ==> Delivers(script[k], base + k, rejects)) <==>
            o == Resolved(Response(200, OkTrue, NoRetryHeaders)))
      && ((forall k :: 0 <= k < |script| ==> Delivers(script[k], base + k, rejects)) ==> posts == script)
  {
    var script := Replies(cfg, ParseMessage(text), Get(Event(data), "channel"), Get(Event(data), "user"));
    MentionRunsReplies(cfg, data, rejects, base, text);
    AwaitEachPrefix(script, rejects, base);
    AwaitEachSucceeds(script, rejects, base);
  }

  /**
   * When a reply is not delivered, every earlier reply was, and the answer is
   * 500: either the next destination cannot be converted to a string, and
   * that post is not made, or the last post made was rejected, and its
   * rejection is the answer's body.
   */
  lemma MentionFailure(cfg: Config, data: Request, rejects: (nat, Post) -> bool, base: nat, text: string)
    requires Dispatched(data) && EventType(data) == Val(JStr("app_mention"))
    requires !Truthy(Get(Event(data), "bot_id")) && Get(Event(data), "text") == Val(JStr(text))
    requires var script := Replies(cfg, ParseMessage(text), Get(Event(data), "channel"), Get(Event(data), "user"));
      exists k :: 0 <= k < |script| && !Delivers(script[k], base + k, rejects)
    ensures var script := Replies(cfg, ParseMessage(text), Get(Event(data), "channel"), Get(Event(data), "user"));
      var (o, posts) := RunSpec(cfg, data, rejects, base);
      || (&& |posts| < |script|
          && ToStringThrows(script[|posts|].channel)
          && (forall k :: 0 <= k < |posts| ==> Delivers(script[k], base + k, rejects))
          && o == Resolved(Response(500, Stringified(TypeError), NoRetryHeaders)))
      || (&& 0 < |posts| <= |script| && posts == script[..|posts|]
          && !ToStringThrows(posts[|posts| - 1].channel)
          && rejects(base + |posts| - 1, posts[|posts| - 1])
          && (forall k :: 0 <= k < |posts| - 1 ==> Delivers(script[k], base + k, rejects))
          && o == Resolved(Response(500, Stringified(PostRejected(posts[|posts| - 1])), NoRetryHeaders)))
  {
    var script := Replies(cfg, ParseMessage(text), Get(Event(data), "channel"), Get(Event(data), "user"));
    MentionRunsReplies(cfg, data, rejects, base, text);
    AwaitEachPrefix(script, rejects, base);
    AwaitEachSucceeds(script, rejects, base);
    AwaitEachFails(script, rejects, base);
  }

  /** A mention from a person answers with the outcome of awaiting its command's replies in turn. */
  lemma MentionRunsReplies(cfg: Config, data: Request, rejects: (nat, Post) -> bool, base: nat, text: string)
    requires Dispatched(data) && EventType(data) == Val(JStr("app_mention"))
    requires !Truthy(Get(Event(data), "bot_id")) && Get(Event(data), "text") == Val(JStr(text))
    ensures var script := Replies(cfg, ParseMessage(text), Get(Event(data), "channel"), Get(Event(data), "user"));
      var (posts, thrown) := AwaitEach(script, rejects, base);
      RunSpec(cfg, data, rejects, base) ==
        if thrown.None? then (Resolved(Response(200, OkTrue, NoRetryHeaders)), posts)
        else (Resolved(Response(500, Stringified(thrown.value), NoRetryHeaders)), posts)
  {
  }

  /** A mention whose text is missing or not a string throws on `split`: no post, and 500. */
  lemma MentionWithoutText(cfg: Config, data: Request, rejects: (nat, Post) -> bool, base: nat)
    requires Dispatched(data) && EventType(data) == Val(JStr("app_mention"))
    requires !Truthy(Get(Event(data), "bot_id"))
    requires !(Get(Event(data), "text").Val? && Get(Event(data), "text").json.JStr?)
    ensures RunSpec(cfg, data, rejects, base) == (Resolved(Response(500, Stringified(TypeError), NoRetryHeaders)), [])
  {
  }

  /** `test` answers in the channel and then sends the user a direct message. */
  lemma TestCommandReplies(cfg: Config, channel: JsVal, user: JsVal)
    ensures var r := Replies(cfg, "test", channel, user);
      |r| == 2 && r[0].channel == channel && r[1].channel == user
  {
  }

  /** `hello` has no `break`: after `Hello there!` it makes the reply of every unrecognised command. */
  lemma HelloFallsThrough(cfg: Config, command: string, channel: JsVal, user: JsVal)
    requires command !in {"help", "test", "hello"}
    ensures Replies(cfg, "hello", channel, user) == [Post(channel, HelloReply)] + Replies(cfg, command, channel, user)
  {
  }

  /** `help` makes one post with empty text; any command but the three named ones makes one post naming the bot. */
  lemma OtherCommandReplies(cfg: Config, command: string, channel: JsVal, user: JsVal)
    ensures Replies(cfg, "help", channel, user) == [Post(channel, "")]
    ensures command !in {"help", "test", "hello"} ==>
      var r := Replies(cfg, command, channel, user);
      var name := EnvText(cfg.botName);
      && |r| == 1 && r[0].channel == channel
      && r[0].text[|DefaultReplyStart|..|DefaultReplyStart| + |name|] == name
  {
  }

  /**
   * A team_join event with a user posts one welcome message to the user's
   * id and answers 200 `{ok: true}` whether or not that post is rejected,
   * unless the id cannot be converted to a string: then sendSlackMessage
   * throws before posting, and the answer is 500.
   */
  lemma TeamJoinWelcomes(cfg: Config, data: Request, rejects: (nat, Post) -> bool, base: nat)
    requires Dispatched(data) && EventType(data) == Val(JStr("team_join"))
    requires !Nullish(Get(Payload(data), "user"))
    ensures var id := Get(Get(Payload(data), "user"), "id");
      RunSpec(cfg, data, rejects, base) ==
        if ToStringThrows(id) then (Resolved(Response(500, Stringified(TypeError), NoRetryHeaders)), [])
        else (Resolved(Response(200, OkTrue, NoRetryHeaders)), [Post(id, WelcomeText)])
  {
  }

  /** `{"event":{"type":"team_join"},"user":{"id":{"toString":0}}}` answers 500 and posts nothing. */
  lemma TeamJoinUnconvertibleId(cfg: Config, rejects: (nat, Post) -> bool, base: nat)
    ensures var user := JObj(map["id" := JObj(map["toString" := JNum(0.0)])]);
      var payload := JObj(map["event" := JObj(map["type" := JStr("team_join")]), "user" := user]);
      RunSpec(cfg, Request(Val(JObj(map[])), Parsed(payload)), rejects, base) ==
        (Resolved(Response(500, Stringified(TypeError), NoRetryHeaders)), [])
  {
  }

  /** A team_join event without a user throws on `user.id`: 500 and no post. */
  lemma TeamJoinWithoutUser(cfg: Config, data: Request, rejects: (nat, Post) -> bool, base: nat)
    requires Dispatched(data) && EventType(data) == Val(JStr("team_join"))
    requires Nullish(Get(Payload(data), "user"))
    ensures RunSpec(cfg, data, rejects, base) == (Resolved(Response(500, Stringified(TypeError), NoRetryHeaders)), [])
  {
  }
}
