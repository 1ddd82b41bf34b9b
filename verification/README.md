# Number-guessing chat bot: a Dafny model

This project models the core of a small Telegram bot that answers four text
commands and runs a one-round guessing game per chat. The bot draws a
secret digit from 0 to 9. The user guesses on an inline keypad of ten
buttons, and the bot counts the attempts until the guess is right.

The model has four modules:

- `Wrappers` (wrappers.dfy) holds the `Option` datatype.
- `Text` (text.dfy) holds the string primitives the bot relies on:
  - JavaScript's `replace` with a string pattern, which replaces only the leftmost occurrence (`ReplaceFirst`, via `IndexOf`);
  - `String(n)` for integers (`Show`, `ShowInt`);
  - `parseInt` on button payloads (`ParseDecimal`).
- `Helpers` (helpers.dfy) models helpers.js:
  - the `MESSAGES` template table: `MessageKey` names its eight entries, `Messages` gives each entry's template, and `Template` is the lookup by property name;
  - `localizeMessage` (`Localize`, which applies `Substitute` to the template looked up by `Template`; `Substitute` is the loop, one `ReplaceFirst` per parameter in order). Every call in the bot passes a key that is in the table, so the bot calls `LocalizeEntry`, its form for a table entry (`LocalizeByName` proves the two agree);
  - the range of `getRandomNumber` (`RandomNumber`, `Digit`);
  - the `gameOptions` keyboard as a `seq<seq<Button>>` (`GameOptions`).
- `Bot` (bot.dfy) models index.js:
  - the `chats` store as a `map<ChatId, Session>`;
  - `startGame` as `StartGame`;
  - the `message` handler as `HandleMessage`;
  - the `callback_query` handler as `HandleCallback`.

  Each handler is a pure transition from a store and an event to the next
  store and a `Reply`. `Render` turns a reply into the messages that are
  sent, with the keypad attached where the bot attaches it. `Run` handles
  a sequence of events one at a time.

Randomness is an input. Each event carries the digit that `getRandomNumber`
would return if the event started a round. `RandomNumber` separately
states that `Math.floor(r * 10)` maps the draws in [0, 1) onto exactly the
digits 0 to 9, with each digit covering one tenth of the interval.

Facts about the code that the model makes explicit:

- A wrong-guess reply reports the count from before the increment. So
  every guess reply, win or wrong, reports the starting count plus the
  wrong guesses before it (`RoundOfGuesses`, `FreshRoundCounts`). Until the
  first win, that is the number of the guess within the round. After a win
  it is not: the count stays where it was, so a second matching guess
  reports the same count as the first.
- `/again` is checked before the session lookup, so it restarts a round even
  in a chat that never started one. No keypad button sends `/again`, so only
  a payload from outside the keypad reaches that branch.
- A payload that does not parse counts as a wrong guess, because `NaN`
  never equals the secret.
- A won session stays in place. Further guesses keep getting answered, and
  a matching guess wins again with the same count.
- The reply to a guess in a chat without a session is a fixed English
  text. It does not come from the template table.

## Model

| member | source | states |
|---|---|---|
| Text.IndexOf | helpers.js:20 | the search that `replace` performs finds the leftmost occurrence of the placeholder, or reports that there is none |
| Text.ReplaceFirst | helpers.js:20 | a string-pattern `replace` returns the message unchanged when the placeholder does not occur, and otherwise splices the value in place of the leftmost occurrence, keeping the text on both sides |
| Text.ReplaceFirstAfter | helpers.js:20 | a placeholder preceded by text without its first character is replaced right where it stands |
| Text.ReplaceFirstOnlyOnce | helpers.js:19-21 | with two occurrences of a placeholder, the first is replaced and the second survives verbatim |
| Text.Show | helpers.js:20 | a number substituted into a template is written as a non-empty string of decimal digits with no leading zero, so a zero is written `0` |
| Text.ShowInt | helpers.js:20 | an integer is written in canonical decimal: digits with no leading zero that read back as its value, after a minus sign when it is negative |
| Text.ParseDecimal | index.js:117 | a payload parses to a number exactly when it is a non-empty string of digits |
| Text.ParseShow | index.js:117 | parsing the decimal text of a number gives the number back |
| Text.NoBraceInShowInt | helpers.js:19-21 | a substituted number never contains `{`, so it cannot create a placeholder for a later parameter |
| Helpers.Lookup | helpers.js:18 | a property name selects the table entry stored under that name, or none when no entry has it |
| Helpers.LookupKeyName | helpers.js:1-15 | the eight entry names are distinct, so each entry is found again under its own name |
| Helpers.Substitute | helpers.js:19-21 | applying the parameters in turn leaves an empty message empty, and leaves a message holding none of their placeholders unchanged |
| Helpers.Localize | helpers.js:17-23 | `localizeMessage` fills in the template of a known key, and returns the empty string for an unknown key whatever the parameters |
| Helpers.Template | helpers.js:18 | a known key gives its template and an unknown key gives the empty string |
| Helpers.LocalizeByName | helpers.js:17-23 | `localizeMessage` called with an entry's name localizes that entry's template |
| Helpers.LocalizeUnknownKey | helpers.js:17-23 | an unknown key localizes to the empty string, whatever parameters are passed |
| Helpers.LocalizeNoParams | helpers.js:17-22 | without parameters, a known key localizes to its template verbatim |
| Helpers.SubstituteSkipsAbsent | helpers.js:19-21 | a parameter whose placeholder does not occur leaves the message unchanged |
| Helpers.SubstituteFirstOnly | helpers.js:19-21 | a parameter replaces only the first occurrence of its placeholder |
| Helpers.LocalizeInfo | helpers.js:3 | `localizeMessage('info_message', {name})` is the fixed prefix followed by the name, for any name without `$` patterns; the model inserts the name literally |
| Helpers.FillWin | helpers.js:7-8 | filling the win template puts the first value where `{randomNumber}` was and the second where `{attempts}` was |
| Helpers.LocalizeWin | helpers.js:7-8 | the win message shows the secret and then the count, each at its placeholder |
| Helpers.LocalizeWrongGuess | helpers.js:9-10 | the wrong-guess message is the fixed text followed by the count |
| Helpers.RandomNumber | helpers.js:25-27 | `Math.floor(r * 10)` for r in [0, 1) is a digit from 0 to 9, namely the one whose tenth of the interval holds r |
| Helpers.RandomNumberCovers | helpers.js:26 | every digit 0..9 can be drawn |
| Helpers.KeypadShape | helpers.js:31-48 | the keypad has four rows of sizes 3, 3, 3 and 1, and the last row is the single button 9 |
| Helpers.KeypadButtons | helpers.js:31-48 | the keypad has exactly ten buttons, labelled 0 to 9 in ascending order, and each button's payload equals its label |
| Helpers.KeypadPayloadsParse | helpers.js:31-48 | the payload of the i-th button parses to i |
| Bot.StartGame | index.js:38-49 | starting a game gives the chat the session (secret, 1), whatever it had before, and leaves every other chat's entry as it was |
| Bot.HandleMessage | index.js:73-93 | text dispatch is an exact match on /start, /info, /game and /help; any other text gets the default reply; only /game changes the store |
| Bot.HandleCallback | index.js:99-127 | `/again` restarts the round before any lookup; without a session the store is unchanged and the reply is the start-first hint; a guess keeps the secret; other chats are untouched |
| Bot.Step | index.js:73-127 | no event changes the entry of any chat other than its own |
| Bot.Run | index.js:73-127 | a sequence of events gets exactly one reply per event, and no session present at the start is removed |
| Bot.GuessWithoutSession | index.js:109-112 | a guess in a chat without a session gets the start-first reply and leaves the store unchanged |
| Bot.GuessInRound | index.js:114-126 | a matching guess wins with the stored secret and count and leaves the store unchanged; any other guess adds exactly 1 to the count, keeps the secret, and reports the count from before the increment |
| Bot.Matches | index.js:117 | a guess can match only when the payload is a non-empty string of digits, so `/again` never matches, and the decimal text of the secret always matches |
| Bot.KeypadPressMatches | index.js:117 | pressing the i-th keypad button is a correct guess exactly when i is the secret |
| Bot.RestartResets | index.js:104-106 | `/again` and `/game` always produce a fresh session with count 1 and the new draw, including after a win |
| Bot.StepPreservesValid | index.js:42 | every event keeps every session's secret a digit and its count at least 1 |
| Bot.RunPreservesValid | index.js:42 | over any sequence of events, every session keeps a digit secret and a count of at least 1 |
| Bot.RunFrame | index.js:27 | events from other chats never change a chat's entry |
| Bot.RunKeepsRound | index.js:99-127 | until `/game` or `/again` comes in that chat, any events, including other commands and other chats' events, keep the chat's session, its secret, and a count that never decreases |
| Bot.RoundOfGuesses | index.js:114-125 | over a run of guesses, the secret is constant and the count grows by the number of wrong guesses; each reply is a win exactly when the guess matches, and reports the starting count plus the earlier wrong guesses |
| Bot.FreshRoundCounts | index.js:121-125 | in a fresh round, the reply to a wrong guess reports how many wrong guesses have been made, itself included |
| Bot.WrongCountSnoc | index.js:123 | appending one guess adds 1 to the wrong-guess count exactly when that guess is wrong |
| Bot.Render | index.js:39-125 | `startGame`'s two sends (index.js:39-48), the command replies (index.js:80-91), the start-first hint (index.js:111) and the guess replies (index.js:117-125): /start, /help and unknown text get their templates verbatim and the hint its fixed text, all without a keypad; the info reply is the fixed prefix and the sender's name; the win reply shows the secret and the count in decimal, with no keypad; the wrong-guess reply shows the count in decimal, with the keypad; a new round sends the game-start text and then the prompt with the keypad |
| Bot.RenderKeypad | index.js:44-48 | the keypad is attached to the guessing prompt of a new round and to every wrong-guess reply, and to nothing else; it is always `gameOptions` |
| Bot.ScenarioGuessTwice | index.js:114-125 | with secret 4, a guess of 2 is wrong and reports 1, moving the count to 2; then 4 wins, reporting (4, 2) |
| Bot.ScenarioAgain | index.js:104-106 | `/again` during a round replaces the old session with (new draw, 1) |

## Left out

- Telegram transport is not modelled: the bot client, polling, `sendMessage`, and the ordering of its awaits are network I/O. Replies are returned as values, and `Render` gives the messages that would be sent.
- Loading `dotenv` and reading the bot token (index.js:7, 15, 21) are not modelled. They are process setup.
- `setMyCommands` (index.js:62-67) is not modelled. It only registers the command menu with the client.
- Helpers.RandomNumber: computes over mathematical reals rather than IEEE doubles, and models no random source. Each event carries the drawn digit instead.
- `JSON.stringify` of `reply_markup` (helpers.js:30) is not modelled. The keyboard is kept as a structure, not serialised.
- Text.ReplaceFirst: does not model the `$`-patterns that JavaScript interprets in the replacement string of a string-pattern `replace` (`$$`, `$&`, `` $` `` and `$'`; with no capture groups, `$1` is literal already). A value containing them is inserted literally.
- Text.ParseDecimal: models `parseInt` only on plain digit strings. It does not model leading whitespace, signs, or prefix parsing (`"4x"` is 4 for `parseInt`). Such payloads are wrong guesses here. The keypad only ever sends single digits.
- Text.ShowInt: models `String(n)` for integers only. No non-integer values reach a template.
- Helpers.Substitute: takes the parameters as an ordered list of name/value pairs. That is the order `Object.entries` gives for the non-numeric keys the bot uses. JavaScript's reordering of numeric keys is not modelled.
- Helpers.Template: inherited `Object.prototype` keys are not modelled. For example, `MESSAGES['toString']` is a function, not `''` (helpers.js:18). Here every name outside the eight entries gives the empty string. The bot only passes the eight entry names.
- The await ordering in `startGame` is not modelled: the session is written only after the first `sendMessage` resolves (index.js:39-42). In the source, a failed send leaves no session, and an event handled during that await sees the old store. `Step` applies `StartGame` in one step. This is left out with the rest of the transport.
- Bot.HandleCallback: the count is an unbounded integer. In JavaScript, `chat.attempts++` (index.js:123) stops changing at 2^53. No round can realistically reach that.
- A sender without a first name (where JavaScript would substitute `undefined`) is not modelled: the name is always a string.
