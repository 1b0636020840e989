/**
 * The Slack event handler: the Lambda entry point `run`, the URL
 * verification handshake, the mention commands and the welcome message.
 *
 * Each operation is a specification function over values (RunSpec,
 * HandleMentionSpec, NewTeamMemberSpec) and, where the handler works step by
 * step, a method proved against that function (Run, HandleMention,
 * NewTeamMember). Outbound chat.postMessage calls are recorded by a Slack
 * object, and whether each call's promise rejects is an oracle it carries.
 */
module Bot {
  import opened Wrappers
  import opened JsValues
  import opened JsStrings

  /** The environment the handler reads; None is an unset variable, which reads as `undefined`. */
  datatype Config = Config(verificationToken: Option<string>, botName: Option<string>)

  /** An environment variable as a JavaScript value. */
  function EnvValue(v: Option<string>): (r: JsVal) {
    match v
    case None => Undefined
    case Some(s) => Val(JStr(s))
  }

  /** An environment variable interpolated into a template literal. */
  function EnvText(v: Option<string>): (r: string) {
    match v
    case None => "undefined"
    case Some(s) => s
  }

  /** What `JSON.parse(data.body)` gives: a value, or a thrown SyntaxError. */
  datatype ParsedBody = Malformed | Parsed(value: Json)

  /** The invocation event: its `headers` and its body after parsing. */
  datatype Request = Request(headers: JsVal, body: ParsedBody)

  /** One chat.postMessage call: the destination (channel or user) and the text. */
  datatype Post = Post(channel: JsVal, text: string)

  /** What the handler can throw. */
  datatype Thrown =
    | TypeError                 // a property read on null or undefined, `in` on a non-object, `split` on a non-string,
                              // or a destination that cannot be converted to a string
    | VerificationFailed        // the string thrown by verifyCall
    | PostRejected(post: Post)  // the rejection of an awaited chat.postMessage call

  /** A response body: a value, or `JSON.stringify(err)` of a caught error (its text is not modelled). */
  datatype Body = Value(v: JsVal) | Stringified(err: Thrown)

  datatype Response = Response(statusCode: int, body: Body, headers: map<string, int>)

  /** The settled promise of `run`: a response, or a rejection when the body does not parse. */
  datatype RunOutcome = Resolved(response: Response) | Rejected

  const RetryHeader := "X-Slack-Retry-Num"
  const NoRetryHeaders: map<string, int> := map["X-Slack-No-Retry" := 1]
  const EmptyObject: Body := Value(Val(JObj(map[])))
  const OkTrue: Body := Value(Val(JObj(map["ok" := JBool(true)])))
  const EmptyRequest: Body := Value(Val(JStr("Empty request")))
  /** The response `run` starts from and returns unless something changes it. */
  const DefaultResponse := Response(200, EmptyObject, NoRetryHeaders)

  const TestChannelReply := "Very cool, thank you for testing me. Now sending you some fun info!"
  const TestDirectReply := "You have been tested!"
  const HelloReply := "Hello there!"
  const DefaultReplyStart := "Thank you for calling me, now run `@"
  const DefaultReplyEnd := " test` to test me and report the results"
  const WelcomeText := "Welcome to the DeepRacing Community Slack! This bot is still in development, if this worked for you, give @caelinsutch a heads up so he knows everything is working properly!"

  /** The reply to an unrecognised command, naming the bot. */
  function DefaultReply(cfg: Config): (r: string) {
    DefaultReplyStart + EnvText(cfg.botName) + DefaultReplyEnd
  }

  /** How a call of sendSlackMessage ends: it throws before posting, or the post's promise fulfils or rejects. */
  datatype SendOutcome = SendThrew | SendAccepted | SendRejected

  /** The Slack Web API as the handler sees it: a record of every post, and an oracle saying which posts fail. */
  class Slack {
    /** Every chat.postMessage call made so far, in order. */
    var posted: seq<Post>
    /** Whether the promise of the call with index n (counting from 0) that posts p rejects. */
    const rejects: (nat, Post) -> bool

    constructor (rejects: (nat, Post) -> bool)
      ensures posted == [] && this.rejects == rejects
    {
      posted := [];
      this.rejects := rejects;
    }

    /**
     * sendSlackMessage: builds a log line by string concatenation with the
     * destination, which throws when the destination cannot be converted to a string, and
     * otherwise makes one chat.postMessage call, whose promise may reject.
     */
    method PostMessage(channel: JsVal, text: string) returns (outcome: SendOutcome)
      modifies this
      ensures ToStringThrows(channel) ==> outcome == SendThrew && posted == old(posted)
      ensures !ToStringThrows(channel) ==>
        && posted == old(posted) + [Post(channel, text)]
        && outcome == (if rejects(|old(posted)|, Post(channel, text)) then SendRejected else SendAccepted)
    {
      if ToStringThrows(channel) {
        return SendThrew;
      }
      outcome := if rejects(|posted|, Post(channel, text)) then SendRejected else SendAccepted;
      posted := posted + [Post(channel, text)];
    }
  }

  /** The post is made without a throw and its promise fulfils, when `n` posts were made before it. */
  predicate Delivers(p: Post, n: nat, rejects: (nat, Post) -> bool) {
    !ToStringThrows(p.channel) && !rejects(n, p)
  }

  /**
   * Awaiting the sends of `script` one after another, when `base` posts were
   * made before: the posts actually made, and the error that ended the
   * sequence early, if any. A destination that cannot be converted to a
   * string throws before its post is made; a rejected post is made and its
   * rejection is thrown; either way the rest of the script is abandoned.
   */
  function AwaitEach(script: seq<Post>, rejects: (nat, Post) -> bool, base: nat): (r: (seq<Post>, Option<Thrown>))
    decreases |script|
  {
    if script == [] then ([], None)
    else if ToStringThrows(script[0].channel) then ([], Some(TypeError))
    else if rejects(base, script[0]) then ([script[0]], Some(PostRejected(script[0])))
    else
      var (rest, thrown) := AwaitEach(script[1..], rejects, base + 1);
      ([script[0]] + rest, thrown)
  }

  /** The posts made are the script's first posts, in order. */
  lemma {:induction false} AwaitEachPrefix(script: seq<Post>, rejects: (nat, Post) -> bool, base: nat)
    ensures var r := AwaitEach(script, rejects, base);
      |r.0| <= |script| && r.0 == script[..|r.0|]
    decreases |script|
  {
    if script != [] && Delivers(script[0], base, rejects) {
      AwaitEachPrefix(script[1..], rejects, base + 1);
    }
  }

  /** The sequence succeeds exactly when every send is delivered, and then every post is made. */
  lemma {:induction false} AwaitEachSucceeds(script: seq<Post>, rejects: (nat, Post) -> bool, base: nat)
    ensures var r := AwaitEach(script, rejects, base);
      && (r.1.None? <==> forall k :: 0 <= k < |script| ==> Delivers(script[k], base + k, rejects))
      && (r.1.None? ==> r.0 == script)
    decreases |script|
  {
    if script != [] && Delivers(script[0], base, rejects) {
      AwaitEachSucceeds(script[1..], rejects, base + 1);
      forall k | 1 <= k < |script|
        ensures Delivers(script[k], base + k, rejects) == Delivers(script[1..][k - 1], base + 1 + (k - 1), rejects)
      {
      }
    }
  }

  /**
   * A sequence that fails stops at its first send that is not delivered, every
   * earlier one having been delivered: either that send's destination cannot
   * be converted, and its post is not made, or its post is made, rejected, and
   * its rejection is thrown.
   */
  lemma {:induction false} AwaitEachFails(script: seq<Post>, rejects: (nat, Post) -> bool, base: nat)
    ensures var r := AwaitEach(script, rejects, base);
      && (r.1.Some? ==> r.1 == Some(TypeError) || r.1.value.PostRejected?)
      && (r.1 == Some(TypeError) ==>
            && |r.0| < |script|
            && ToStringThrows(script[|r.0|].channel)
            && forall k :: 0 <= k < |r.0| ==> Delivers(script[k], base + k, rejects))
      && (r.1.Some? && r.1.value.PostRejected? ==>
            && 0 < |r.0| <= |script|
            && !ToStringThrows(script[|r.0| - 1].channel)
            && rejects(base + |r.0| - 1, script[|r.0| - 1])
            && r.1 == Some(PostRejected(script[|r.0| - 1]))
            && forall k :: 0 <= k < |r.0| - 1 ==> Delivers(script[k], base + k, rejects))
    decreases |script|
  {
    if script != [] && Delivers(script[0], base, rejects) {
      AwaitEachFails(script[1..], rejects, base + 1);
      var r := AwaitEach(script[1..], rejects, base + 1);
      forall k | 1 <= k < |script|
        ensures Delivers(script[k], base + k, rejects) == Delivers(script[1..][k - 1], base + 1 + (k - 1), rejects)
      {
      }
    }
  }

  /** AwaitEach on one send. */
  lemma AwaitOne(p: Post, rejects: (nat, Post) -> bool, base: nat)
    ensures AwaitEach([p], rejects, base) ==
      if ToStringThrows(p.channel) then ([], Some(TypeError))
      else if rejects(base, p) then ([p], Some(PostRejected(p)))
      else ([p], None)
  {
    if Delivers(p, base, rejects) {
      assert [p][1..] == [];
      assert [p] + [] == [p];
    }
  }

  /** AwaitEach on two sends: the second is reached only when the first is delivered. */
  lemma AwaitTwo(p: Post, q: Post, rejects: (nat, Post) -> bool, base: nat)
    ensures !Delivers(p, base, rejects) ==> AwaitEach([p, q], rejects, base) == AwaitEach([p], rejects, base)
    ensures Delivers(p, base, rejects) ==>
      AwaitEach([p, q], rejects, base) == ([p] + AwaitEach([q], rejects, base + 1).0, AwaitEach([q], rejects, base + 1).1)
  {
  }

  /** parseMessage: `message.split(' ', 2).pop()`. */
  function ParseMessage(message: string): (command: string) {
    var parts := SplitLimit(message, 2);
    parts[|parts| - 1]
  }

  /** The posts handleMention makes for `command`, in order. `hello` has no `break` and goes on into the default case. */
  function Replies(cfg: Config, command: string, channel: JsVal, user: JsVal): (script: seq<Post>) {
    if command == "help" then [Post(channel, "")]
    else if command == "test" then [Post(channel, TestChannelReply), Post(user, TestDirectReply)]
    else if command == "hello" then [Post(channel, HelloReply), Post(channel, DefaultReply(cfg))]
    else [Post(channel, DefaultReply(cfg))]
  }

  /** verifyCall: the challenge when the token is the configured one, and the thrown string otherwise. */
  function VerifyCall(cfg: Config, data: JsVal): (r: Result<JsVal, Thrown>) {
    if Nullish(data) then Err(TypeError)
    // `===` against a string or undefined holds exactly when the values are equal
    else if Get(data, "token") == EnvValue(cfg.verificationToken) then Ok(Get(data, "challenge"))
    else Err(VerificationFailed)
  }

  /** handleMention: the posts made and what the returned promise rejects with, if anything. */
  function HandleMentionSpec(cfg: Config, message: JsVal, rejects: (nat, Post) -> bool, base: nat)
    : (r: (seq<Post>, Option<Thrown>))
  {
    if Nullish(message) then ([], Some(TypeError))
    else if Truthy(Get(message, "bot_id")) then ([], None)
    else
      match Get(message, "text")
      case Val(JStr(text)) =>
        AwaitEach(Replies(cfg, ParseMessage(text), Get(message, "channel"), Get(message, "user")), rejects, base)
      case _ => ([], Some(TypeError))
  }

  /**
   * newTeamMember: reading `user.id` and converting it to a string can throw;
   * otherwise the welcome post is made but not awaited, so its outcome is never seen.
   */
  function NewTeamMemberSpec(user: JsVal): (r: (seq<Post>, Option<Thrown>)) {
    if Nullish(user) || ToStringThrows(Get(user, "id")) then ([], Some(TypeError))
    else ([Post(Get(user, "id"), WelcomeText)], None)
  }

  /** The `try` block of run: the response as it leaves the block, the posts made and the error thrown, if any. */
  function TryBlock(cfg: Config, headers: JsVal, dataObject: JsVal, rejects: (nat, Post) -> bool, base: nat)
    : (r: (Response, seq<Post>, Option<Thrown>))
  {
    match HasProperty(RetryHeader, headers)
    case None => (DefaultResponse, [], Some(TypeError))
    case Some(true) => (DefaultResponse, [], None)
    case Some(false) =>
      if Nullish(dataObject) || Nullish(Get(dataObject, "event")) then (DefaultResponse, [], Some(TypeError))
      else
        var event := Get(dataObject, "event");
        var eventType := Get(event, "type");
        if eventType == Val(JStr("url_verification")) then
          match VerifyCall(cfg, dataObject)
          case Ok(challenge) => (DefaultResponse.(body := Value(challenge)), [], None)
          case Err(e) => (DefaultResponse, [], Some(e))
        else if eventType == Val(JStr("app_mention")) then
          var (posts, thrown) := HandleMentionSpec(cfg, event, rejects, base);
          (if thrown.None? then DefaultResponse.(body := OkTrue) else DefaultResponse, posts, thrown)
        else if eventType == Val(JStr("team_join")) then
          var (posts, thrown) := NewTeamMemberSpec(Get(dataObject, "user"));
          (if thrown.None? then DefaultResponse.(body := OkTrue) else DefaultResponse, posts, thrown)
        else (DefaultResponse.(statusCode := 400, body := EmptyRequest), [], None)
  }

  /** run: the settled outcome and the posts made, when `base` posts were made before. */
  function RunSpec(cfg: Config, data: Request, rejects: (nat, Post) -> bool, base: nat): (r: (RunOutcome, seq<Post>)) {
    match data.body
    case Malformed => (Rejected, [])
    case Parsed(json) =>
      var (response, posts, thrown) := TryBlock(cfg, data.headers, Val(json), rejects, base);
      match thrown
      case None => (Resolved(response), posts)
      case Some(e) => (Resolved(response.(statusCode := 500, body := Stringified(e))), posts)
  }

  /** handleMention: ignores bots, parses the command and awaits each reply in turn. */
  method HandleMention(cfg: Config, message: JsVal, slack: Slack) returns (thrown: Option<Thrown>)
    modifies slack
    ensures var (posts, err) := HandleMentionSpec(cfg, message, slack.rejects, |old(slack.posted)|);
      thrown == err && slack.posted == old(slack.posted) + posts
  {
    if Nullish(message) {
      return Some(TypeError);
    }
    if Truthy(Get(message, "bot_id")) {
      return None;
    }
    var text := Get(message, "text");
    if !(text.Val? && text.json.JStr?) {
      return Some(TypeError);
    }
    thrown := SendReplies(cfg, ParseMessage(text.json.s), Get(message, "channel"), Get(message, "user"), slack);
  }

  /** `await sendSlackMessage(channel, text)`: what the await throws, if anything. */
  method AwaitPost(channel: JsVal, text: string, slack: Slack) returns (thrown: Option<Thrown>)
    modifies slack
    ensures var (posts, err) := AwaitEach([Post(channel, text)], slack.rejects, |old(slack.posted)|);
      thrown == err && slack.posted == old(slack.posted) + posts
    ensures thrown.None? <==> Delivers(Post(channel, text), |old(slack.posted)|, slack.rejects)
  {
    AwaitOne(Post(channel, text), slack.rejects, |slack.posted|);
    var sent := slack.PostMessage(channel, text);
    thrown := match sent
      case SendThrew => Some(TypeError)
      case SendRejected => Some(PostRejected(Post(channel, text)))
      case SendAccepted => None;
  }

  /** The `switch` of handleMention: the replies to `command`, each awaited before the next. */
  method SendReplies(cfg: Config, command: string, channel: JsVal, user: JsVal, slack: Slack) returns (thrown: Option<Thrown>)
    modifies slack
    ensures var (posts, err) := AwaitEach(Replies(cfg, command, channel, user), slack.rejects, |old(slack.posted)|);
      thrown == err && slack.posted == old(slack.posted) + posts
  {
    ghost var base := |slack.posted|;
    if command == "help" {
      thrown := AwaitPost(channel, "", slack);
    } else if command == "test" {
      assert Replies(cfg, command, channel, user) == [Post(channel, TestChannelReply), Post(user, TestDirectReply)];
      AwaitTwo(Post(channel, TestChannelReply), Post(user, TestDirectReply), slack.rejects, base);
      thrown := AwaitPost(channel, TestChannelReply, slack);
      if thrown.Some? {
        return;
      }
      thrown := AwaitPost(user, TestDirectReply, slack);
    } else {
      if command == "hello" {
        assert Replies(cfg, command, channel, user) == [Post(channel, HelloReply), Post(channel, DefaultReply(cfg))];
        AwaitTwo(Post(channel, HelloReply), Post(channel, DefaultReply(cfg)), slack.rejects, base);
        thrown := AwaitPost(channel, HelloReply, slack);
        if thrown.Some? {
          return;
        }
        // no `break`: on into the default case
      }
      thrown := AwaitPost(channel, DefaultReply(cfg), slack);
    }
  }

  /** newTeamMember: posts the welcome message to `user.id` without awaiting it. */
  method NewTeamMember(user: JsVal, slack: Slack) returns (thrown: Option<Thrown>)
    modifies slack
    ensures var (posts, err) := NewTeamMemberSpec(user);
      thrown == err && slack.posted == old(slack.posted) + posts
  {
    if Nullish(user) {
      return Some(TypeError);
    }
    // the promise of the post is dropped: only a throw before the post is observed
    var sent := slack.PostMessage(Get(user, "id"), WelcomeText);
    if sent == SendThrew {
      return Some(TypeError);
    }
    return None;
  }

  /** run: builds the response step by step; an error thrown in the `try` block becomes a 500. */
  method Run(cfg: Config, data: Request, slack: Slack) returns (outcome: RunOutcome)
    modifies slack
    ensures var (o, posts) := RunSpec(cfg, data, slack.rejects, |old(slack.posted)|);
      outcome == o && slack.posted == old(slack.posted) + posts
  {
    if data.body.Malformed? {
      // JSON.parse throws before the `try`: the returned promise rejects
      return Rejected;
    }
    var dataObject := Val(data.body.value);
    var response := Response(200, EmptyObject, NoRetryHeaders);
    var thrown: Option<Thrown> := None;
    // try
    var retried := HasProperty(RetryHeader, data.headers);
    if retried.None? {
      thrown := Some(TypeError);
    } else if !retried.value {
      if Nullish(dataObject) || Nullish(Get(dataObject, "event")) {
        thrown := Some(TypeError);
      } else {
        var event := Get(dataObject, "event");
        var eventType := Get(event, "type");
        if eventType == Val(JStr("url_verification")) {
          var verified := VerifyCall(cfg, dataObject);
          if verified.Ok? {
            response := response.(body := Value(verified.value));
          } else {
            thrown := Some(verified.error);
          }
        } else if eventType == Val(JStr("app_mention")) {
          thrown := HandleMention(cfg, event, slack);
          if thrown.None? {
            response := response.(body := OkTrue);
          }
        } else if eventType == Val(JStr("team_join")) {
          thrown := NewTeamMember(Get(dataObject, "user"), slack);
          if thrown.None? {
            response := response.(body := OkTrue);
          }
        } else {
          response := response.(statusCode := 400, body := EmptyRequest);
        }
      }
    }
    // catch
    if thrown.Some? {
      response := response.(statusCode := 500, body := Stringified(thrown.value));
    }
    // finally
    return Resolved(response);
  }
}
