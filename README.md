# Slack event handler, modelled in Dafny

A model of the Lambda handler `bot.js` of the DeepRacing Slack bot. The entry point `run`
receives an invocation event (headers and a JSON body). It drops Slack redeliveries that
carry the `X-Slack-Retry-Num` header. Otherwise it dispatches on `event.type`:

- `url_verification` runs the Events API handshake;
- `app_mention` parses a command from the message text and posts canned replies;
- `team_join` posts a welcome message to the new member.

Any other type is answered 400. An error thrown inside the `try` block becomes a 500.
Every response carries the `X-Slack-No-Retry: 1` header.

Files:

- `wrappers.dfy`: `Option` and `Result`.
- `js_values.dfy`: the JavaScript values the handler reads (`Json`, `undefined`), with
  property reads, the `in` operator, nullishness and truthiness.
- `js_strings.dfy`: `split(' ')` and `join(' ')`, proved inverse to each other.
- `bot.dfy`: the handler. Each operation has a specification function over values
  (`RunSpec`, `HandleMentionSpec`, `NewTeamMemberSpec`, `AwaitEach`, `Replies`, `VerifyCall`,
  `ParseMessage`). Where the source works step by step there is also a method proved
  equal to that function (`Run`, `HandleMention`, `SendReplies`, `AwaitPost`,
  `NewTeamMember`). Outbound `chat.postMessage` calls go through a `Slack` object. It
  records every post in order and carries an oracle, `rejects(n, post)`, that says whether
  the promise of the n-th call rejects.
- `bot_properties.dfy`: the properties of the handler, as lemmas over those functions.

Points where the code is easy to misread; the model follows the code as written:

- `parseMessage` splits on a single space character, not on any whitespace. A text
  without a space yields the whole text, not an empty value. Two spaces in a row yield an
  empty command when they come right after the mention (`"<@B>  x"` gives `""`).
- `JSON.parse` runs before the `try` block. A body that does not parse therefore makes
  the promise of `run` reject (`RunOutcome.Rejected`); it does not give a 500 response.
- The `hello` case has no `break`. It posts `Hello there!` and then also the default
  reply. This is modelled as written.
- If `VERIFICATION_TOKEN` is unset, a handshake whose payload has no `token` passes,
  because `undefined === undefined` (`UnsetTokenAdmitsTokenless`).
- `sendSlackMessage` first builds a log line by concatenating strings with the text and
  the destination. Converting the destination to a string throws a TypeError when the destination is a parsed object with its
  own `toString` key, or an array holding such a value (`ToStringThrows`). Then no post
  is made, and the throw reaches the `catch` of `run` even from the unawaited call in
  `newTeamMember`, because it happens before any promise exists.

## Model

| member | source | states |
|---|---|---|
| `Bot.Run` | bot.js:12-61 | Run's response and posts are those of `RunSpec`. Its steps: parse before the `try`, start from 200 `{}` with the no-retry header, retry filter, switch on `event.type`, errors in the `try` caught as 500. |
| `Bot.HandleMention` | bot.js:83-113 | Ignores bot messages, throws a TypeError on a missing or non-string text, and otherwise sends the command's replies, as `HandleMentionSpec` says. |
| `Bot.SendReplies` | bot.js:93-111 | The `switch`: awaits the replies of `Replies` one by one with `hello` falling into the default case, stopping at the first send that throws or is rejected, as `AwaitEach` says. |
| `Bot.AwaitPost` | bot.js:96-97 | One `await sendSlackMessage(...)`: throws a TypeError with no post for an unconvertible destination, otherwise posts once and throws the rejection if the post is rejected. |
| `Bot.NewTeamMember` | bot.js:115-120 | Makes one welcome post to `user.id` and never reports the post's rejection. A nullish user, or an id that cannot be converted to a string, throws before any post. |
| `Bot.Slack.PostMessage` | bot.js:128-139 | With a destination that cannot be converted to a string, throws and posts nothing. Otherwise appends exactly one post (destination, text) to the record of calls and reports rejection as the oracle says for that call. |
| `Bot.AwaitEach` | bot.js:96-110 | Sequential awaits of a script of sends; properties in `AwaitEachPrefix`, `AwaitEachSucceeds`, `AwaitEachFails`. |
| `Bot.AwaitEachPrefix` | bot.js:96-110 | The posts made are the script's first posts, in order. |
| `Bot.AwaitEachSucceeds` | bot.js:96-110 | The sequence succeeds exactly when every send is delivered (its destination converts to a string and its post is not rejected), and then every post is made. |
| `Bot.AwaitEachFails` | bot.js:96-110 | A failing sequence stops at its first send that is not delivered, every earlier one having been delivered. Either its destination cannot be converted (TypeError, that post not made), or its post is made, rejected and thrown. |
| `Bot.Replies` | bot.js:93-111 | The replies to each command, in order; properties in `TestCommandReplies`, `HelloFallsThrough`, `OtherCommandReplies`. |
| `Bot.VerifyCall` | bot.js:67-76 | The handshake; properties in `VerifyCallEchoesOnMatch` and `UnsetTokenAdmitsTokenless`. |
| `Bot.ParseMessage` | bot.js:146-149 | `split(' ', 2).pop()`; properties in `ParseMessageWhole`, `ParseMessageSecondField`, `ParseMessageSpaced`. |
| `Bot.HandleMentionSpec` | bot.js:83-113 | What handleMention posts and throws; properties in `BotMentionIgnored`, `MentionReplies`, `MentionWithoutText`. |
| `Bot.NewTeamMemberSpec` | bot.js:115-120 | What newTeamMember posts and throws; properties in `TeamJoinWelcomes`, `TeamJoinWithoutUser`. |
| `Bot.TryBlock` | bot.js:24-51 | The `try` block: retry filter and `switch`; properties in `RetryIsIgnored`, `UndispatchedThrows`, `UrlVerification`, `UnknownEventType`. |
| `Bot.RunSpec` | bot.js:12-61 | The whole of `run`; properties in `RejectsOnlyMalformed`, `ResponseShape`, `UndispatchedThrows` and the event lemmas. |
| `JsStrings.SplitLimit` | bot.js:148 | `split(' ', limit)`: the first `limit` fields of `Split`. |
| `JsValues.ToStringThrows` | bot.js:130 | When the string concatenation in `sendSlackMessage` throws; used by `AwaitEach`, `NewTeamMemberSpec` and `PostMessage`. |
| `JsStrings.Split` | bot.js:148 | `split(' ')` gives at least one field, and no field contains a space. |
| `JsStrings.JoinSplit` | bot.js:148 | Joining the fields with single spaces gives back the original text. |
| `JsStrings.SplitJoin` | bot.js:148 | Splitting the join of space-free fields gives back the fields (split is the inverse of join). |
| `BotProperties.ParseMessageWhole` | bot.js:146-149 | A text without a space is returned whole as the command. |
| `BotProperties.ParseMessageSecondField` | bot.js:146-149 | For `mention + " " + command + rest`, where `rest` is empty or starts with a space, the command is exactly the text between the first and second space. |
| `BotProperties.ParseMessageSpaced` | bot.js:146-149 | A text with a space has at least two fields; the command is the second one and contains no space. |
| `BotProperties.ParseMessageExamples` | bot.js:146-149 | `"<@B> test now"` gives `"test"`, `"<@B>"` gives `"<@B>"`, `"<@B>  x"` gives `""`. |
| `BotProperties.RejectsOnlyMalformed` | bot.js:14-24 | `run` rejects exactly when the body does not parse, and then makes no post; every other request gets a response. |
| `BotProperties.RetryIsIgnored` | bot.js:17-28 | With the `X-Slack-Retry-Num` header present, the result is 200 `{}` with the no-retry header and no posts. |
| `BotProperties.UndispatchedThrows` | bot.js:24-59 | A parsed, non-retry request that never reaches the `switch` (headers not an object, so `in` throws; or a nullish payload or missing `event`, so reading `event.type` throws) is answered 500 with the TypeError and posts nothing. |
| `BotProperties.ResponseShape` | bot.js:17-60 | Every response has header `X-Slack-No-Retry: 1` and status 200, 400 or 500. Status is 500 exactly when the body is a caught error. |
| `BotProperties.VerifyCallEchoesOnMatch` | bot.js:67-76 | `verifyCall` returns the challenge unchanged exactly when the token equals the configured one, and otherwise throws `Verification failed`. |
| `BotProperties.UnsetTokenAdmitsTokenless` | bot.js:69 | With no configured token, a payload without a token passes the handshake. |
| `BotProperties.UrlVerification` | bot.js:33-35 | A handshake answers 200 with the challenge on a matching token and 500 with the verification error otherwise; it never posts. |
| `BotProperties.UnknownEventType` | bot.js:45-48 | Any event type other than the three handled ones answers 400 `Empty request` with no posts. |
| `BotProperties.BotMentionIgnored` | bot.js:36-40 | A mention with a truthy `bot_id` makes no post and still answers 200 `{ok: true}`. |
| `BotProperties.MentionRunsReplies` | bot.js:36-40 | A mention from a person answers 200 `{ok: true}` or 500 with the thrown error, exactly as awaiting its command's replies in turn ends. |
| `BotProperties.MentionReplies` | bot.js:90-111 | A mention from a person posts a prefix of its command's replies, in order. It answers 200 `{ok: true}` exactly when every send is delivered, and then every reply is posted. |
| `BotProperties.MentionFailure` | bot.js:90-111 | When some reply is not delivered, every earlier one was, and the answer is 500. The body is either a TypeError, when the next destination cannot be converted (that post not made), or the rejection of the last post made. |
| `BotProperties.MentionWithoutText` | bot.js:90 | A mention whose text is missing or not a string throws on `split`, makes no post and answers 500. |
| `BotProperties.TestCommandReplies` | bot.js:99-103 | `test` makes exactly two posts: first to the channel, then to the user. |
| `BotProperties.HelloFallsThrough` | bot.js:104-110 | `hello` posts `Hello there!` to the channel, then the same reply as any unrecognised command. |
| `BotProperties.OtherCommandReplies` | bot.js:95-110 | `help` makes one post with empty text. Any other unrecognised command makes one post to the channel that contains `BOT_NAME`. |
| `BotProperties.TeamJoinWelcomes` | bot.js:41-44 | A `team_join` with a user posts exactly one welcome, to `user.id`, and answers 200 `{ok: true}` whatever the oracle says about that post. If `user.id` cannot be converted to a string, it answers 500 with no post. |
| `BotProperties.TeamJoinUnconvertibleId` | bot.js:128-130 | The body `{"event":{"type":"team_join"},"user":{"id":{"toString":0}}}` answers 500 with no post. |
| `BotProperties.TeamJoinWithoutUser` | bot.js:119 | A `team_join` without a user throws on `user.id`: 500 and no post. |

## Left out

- The Slack Web API and the network. Each `chat.postMessage` call is a recorded post; whether it rejects comes from an oracle. The bot OAuth token sent with each call is not modelled.
- The `aws-sdk` import, which is unused, and all `console.log` output. The string conversion that builds the log line in `sendSlackMessage` is modelled, because it can throw.
- JSON text parsing: the model takes the parsed value, or a marker for a parse failure, as input.
- `process.env`: the verification token and the bot name form an immutable `Config`; an unset variable is `None` and reads as `undefined`.
- Promise scheduling. Only the order of posts is modelled, and which rejections reach the `catch`. The unawaited welcome promise can still reject after `run` has settled; whether the runtime then reports an unhandled rejection is outside the model.
- The text that `JSON.stringify` produces for a caught error: a 500 body is `Stringified(err)`, keeping only which error was thrown.
- Property reads are modelled only for the names the handler uses. None of them is an array index, `length`, or a name inherited from a built-in prototype. Reading any of them from a non-object gives `undefined`.
- Numbers are reals. JSON text has no NaN; an overlong literal such as `1e400` parses to `Infinity`, which a real does not represent, but the handler only tests a number for truthiness (`Infinity` is truthy like any non-zero real, `-0` falsy like `0.0`) or converts it to a string, which never throws for a number.
