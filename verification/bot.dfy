/**
 * The bot's event handling: the `chats` store, `startGame`, and the
 * `message` and `callback_query` handlers, each as a pure transition from a
 * store and an event to the next store and the reply to send. Sending is
 * left to the caller: a reply is a value, rendered to text by `Render`.
 */
module Bot {
  import opened Wrappers
  import opened Text
  import opened Helpers

  type ChatId = int

  /** One round of the game in one chat: the secret and the number of the current attempt. */
  datatype Session = Session(randomNumber: int, attempts: int)

  /** `chats`: the session of every chat that has started a round. */
  type Store = map<ChatId, Session>

  /** What the bot answers to one event, before rendering. */
  datatype Reply =
    | Greeting                              // start_message
    | Info(name: string)                    // info_message for the sender's first name
    | RoundStarted                          // game_start_message, then guess_number_message with the keypad
    | Help                                  // help_message
    | Unknown                               // default_message
    | StartFirst                            // the fixed hint to start with /game
    | Win(randomNumber: int, attempts: int) // win_message
    | WrongGuess(attempts: int)             // wrong_guess_message with the keypad

  /** The store after an event, and the reply it produced. */
  datatype Outcome = Outcome(store: Store, reply: Reply)

  /** The text commands the bot recognises, matched exactly. */
  const Commands: set<string> := {"/start", "/info", "/game", "/help"}

  /** The button payload that restarts the round. */
  const Again := "/again"

  /** The one reply that is not taken from the template table. */
  const StartFirstText := "Please start the game first using /game"

  /** A session as the handlers keep it: a digit secret and a count of at least one. */
  ghost predicate ValidSession(s: Session)
  {
    0 <= s.randomNumber <= 9 && s.attempts >= 1
  }

  ghost predicate ValidStore(store: Store)
  {
    forall c :: c in store ==> ValidSession(store[c])
  }

  /** Chat `c` has the same entry, or the same absence of one, in both stores. */
  ghost predicate SameEntry(store: Store, store': Store, c: ChatId)
  {
    (c in store <==> c in store') && (c in store ==> store[c] == store'[c])
  }

  // ---- Transitions ----

  /**
   * `startGame`: a fresh session for `chat` with the drawn secret and the
   * count at 1, replacing whatever session the chat had, even a won one.
   */
  function StartGame(store: Store, chat: ChatId, secret: Digit): (r: Store)
    ensures chat in r && r[chat] == Session(secret, 1)
    ensures ValidSession(r[chat])
    ensures forall c :: c != chat ==> SameEntry(store, r, c)
  {
    store[chat := Session(secret, 1)]
  }

  /**
   * The `message` handler: exact match on the four commands, anything else
   * answered with the default message. `secret` is the draw used if the
   * text starts a round.
   */
  function HandleMessage(store: Store, chat: ChatId, text: string, firstName: string, secret: Digit): (o: Outcome)
    ensures text == "/game" ==> o.store == StartGame(store, chat, secret)
    ensures text != "/game" ==> o.store == store
    ensures o.reply == Greeting <==> text == "/start"
    ensures o.reply == Info(firstName) <==> text == "/info"
    ensures o.reply == RoundStarted <==> text == "/game"
    ensures o.reply == Help <==> text == "/help"
    ensures o.reply == Unknown <==> text !in Commands
  {
    if text == "/start" then Outcome(store, Greeting)
    else if text == "/info" then Outcome(store, Info(firstName))
    else if text == "/game" then Outcome(StartGame(store, chat, secret), RoundStarted)
    else if text == "/help" then Outcome(store, Help)
    else Outcome(store, Unknown)
  }

  /**
   * `parseInt(data) === secret`: only a payload of decimal digits can match,
   * so `/again` never does, and the digits of the secret always do.
   */
  function Matches(data: string, secret: int): (b: bool)
    ensures b ==> 0 <= secret && |data| > 0 && AllDigits(data)
    ensures 0 <= secret && data == Show(secret) ==> b
  {
    var g := ParseDecimal(data);
    if 0 <= secret then
      ParseShow(secret);
      g.Some? && g.value == secret
    else false
  }

  /**
   * The `callback_query` handler: `/again` restarts the round before any
   * session lookup; otherwise a chat without a session is told to start
   * one, a matching guess wins, and any other payload counts as a wrong
   * guess.
   */
  function HandleCallback(store: Store, chat: ChatId, data: string, secret: Digit): (o: Outcome)
    ensures data == Again ==> o == Outcome(StartGame(store, chat, secret), RoundStarted)
    ensures data != Again && chat !in store ==> o == Outcome(store, StartFirst)
    ensures data != Again && chat in store ==> chat in o.store && o.store[chat].randomNumber == store[chat].randomNumber
    ensures forall c :: c != chat ==> SameEntry(store, o.store, c)
  {
    if data == Again then Outcome(StartGame(store, chat, secret), RoundStarted)
    else if chat !in store then Outcome(store, StartFirst)
    else
      var s := store[chat];
      if Matches(data, s.randomNumber) then Outcome(store, Win(s.randomNumber, s.attempts))
      else Outcome(store[chat := s.(attempts := s.attempts + 1)], WrongGuess(s.attempts))
  }

  /** An inbound event: a text message, or a press on an inline button. */
  datatype Event =
    | Message(chat: ChatId, text: string, firstName: string)
    | Press(chat: ChatId, data: string)

  /** An event with the digit `getRandomNumber` returns if the event starts a round. */
  datatype Input = Input(event: Event, draw: Digit)

  function Step(store: Store, input: Input): (o: Outcome)
    ensures forall c :: c != input.event.chat ==> SameEntry(store, o.store, c)
  {
    match input.event
    case Message(chat, text, firstName) => HandleMessage(store, chat, text, firstName, input.draw)
    case Press(chat, data) => HandleCallback(store, chat, data, input.draw)
  }

  /** The store after a sequence of events, handled one at a time, and the reply to each. */
  datatype Trace = Trace(store: Store, replies: seq<Reply>)

  function Run(store: Store, inputs: seq<Input>): (t: Trace)
    ensures |t.replies| == |inputs|
    ensures forall c :: c in store ==> c in t.store
    decreases |inputs|
  {
    if |inputs| == 0 then Trace(store, [])
    else
      var o := Step(store, inputs[0]);
      var rest := Run(o.store, inputs[1..]);
      Trace(rest.store, [o.reply] + rest.replies)
  }

  // ---- Properties of single events ----

  /** A guess without a session is refused and changes nothing. */
  lemma GuessWithoutSession(store: Store, chat: ChatId, data: string, secret: Digit)
    requires data != Again && chat !in store
    ensures HandleCallback(store, chat, data, secret) == Outcome(store, StartFirst)
  {
  }

  /**
   * A guess in a running round: a match wins with the stored secret and
   * count and leaves the session in place; anything else bumps the count
   * by exactly one, keeps the secret, and reports the count as it was
   * before the bump, together with the keypad.
   */
  lemma GuessInRound(store: Store, chat: ChatId, data: string, secret: Digit)
    requires data != Again && chat in store
    ensures var o := HandleCallback(store, chat, data, secret);
            var s := store[chat];
            chat in o.store
            && o.store[chat].randomNumber == s.randomNumber
            && (Matches(data, s.randomNumber) ==> o.store == store && o.reply == Win(s.randomNumber, s.attempts))
            && (!Matches(data, s.randomNumber) ==>
                  o.store[chat].attempts == s.attempts + 1 && o.reply == WrongGuess(o.store[chat].attempts - 1))
  {
  }

  /** Pressing the keypad's i-th button matches the secret exactly when i is the secret. */
  lemma KeypadPressMatches(secret: int)
    ensures forall i :: 0 <= i < |Buttons(GameOptions)| ==> (Matches(Buttons(GameOptions)[i].callbackData, secret) <==> i == secret)
  {
  }

  /** The input starts a new round in chat `c`: `/game` sent there, or `/again` pressed there. */
  predicate Restarts(input: Input, c: ChatId)
  {
    && input.event.chat == c
    && ((input.event.Message? && input.event.text == "/game") || (input.event.Press? && input.event.data == Again))
  }

  /** Restarting, by button or by command, always yields a fresh session whatever came before. */
  lemma RestartResets(store: Store, input: Input)
    requires Restarts(input, input.event.chat)
    ensures var o := Step(store, input);
            o.reply == RoundStarted && o.store == store[input.event.chat := Session(input.draw, 1)]
  {
  }

  /** Every event keeps every session valid. */
  lemma StepPreservesValid(store: Store, input: Input)
    requires ValidStore(store)
    ensures ValidStore(Step(store, input).store)
  {
  }

  // ---- Properties of event sequences ----

  /** Sessions stay valid over any sequence of events. */
  lemma {:induction false} RunPreservesValid(store: Store, inputs: seq<Input>)
    requires ValidStore(store)
    ensures ValidStore(Run(store, inputs).store)
    decreases |inputs|
  {
    if |inputs| > 0 {
      StepPreservesValid(store, inputs[0]);
      RunPreservesValid(Step(store, inputs[0]).store, inputs[1..]);
    }
  }

  /** Events from other chats leave a chat's entry untouched. */
  lemma {:induction false} RunFrame(store: Store, inputs: seq<Input>, c: ChatId)
    requires forall i :: 0 <= i < |inputs| ==> inputs[i].event.chat != c
    ensures SameEntry(store, Run(store, inputs).store, c)
    decreases |inputs|
  {
    if |inputs| > 0 {
      RunFrame(Step(store, inputs[0]).store, inputs[1..], c);
    }
  }


  /**
   * Between restarts a chat's round persists: whatever other commands,
   * guesses or other chats' events come in, the session stays, its secret
   * never changes and its count never decreases.
   */
  lemma {:induction false} RunKeepsRound(store: Store, c: ChatId, inputs: seq<Input>)
    requires c in store
    requires forall i :: 0 <= i < |inputs| ==> !Restarts(inputs[i], c)
    ensures var t := Run(store, inputs);
            && c in t.store
            && t.store[c].randomNumber == store[c].randomNumber
            && t.store[c].attempts >= store[c].attempts
    decreases |inputs|
  {
    if |inputs| > 0 {
      assert !Restarts(inputs[0], c);
      var e := inputs[0].event;
      if e.Press? && e.chat == c {
        GuessInRound(store, c, e.data, inputs[0].draw);
      }
      assert forall i :: 0 <= i < |inputs[1..]| ==> inputs[1..][i] == inputs[i + 1];
      RunKeepsRound(Step(store, inputs[0]).store, c, inputs[1..]);
    }
  }

  /** Every input is a guess in chat `c` (a button press other than `/again`). */
  ghost predicate GuessesIn(inputs: seq<Input>, c: ChatId)
  {
    forall i :: 0 <= i < |inputs| ==> inputs[i].event.Press? && inputs[i].event.chat == c && inputs[i].event.data != Again
  }

  /** The number of inputs that are presses whose payload does not match `secret`. */
  function WrongCount(secret: int, inputs: seq<Input>): nat
    decreases |inputs|
  {
    if |inputs| == 0 then 0
    else (if inputs[0].event.Press? && !Matches(inputs[0].event.data, secret) then 1 else 0) + WrongCount(secret, inputs[1..])
  }

  /**
   * A round of guesses in one chat: the secret never changes, the count
   * grows by the number of wrong guesses, and the reply to each guess is a
   * win exactly when it matches, reporting the starting count plus the
   * wrong guesses made before it.
   */
  lemma {:induction false} RoundOfGuesses(store: Store, c: ChatId, inputs: seq<Input>)
    requires c in store && GuessesIn(inputs, c)
    ensures var t := Run(store, inputs);
            var s := store[c];
            && c in t.store
            && t.store[c].randomNumber == s.randomNumber
            && t.store[c].attempts == s.attempts + WrongCount(s.randomNumber, inputs)
            && forall i :: 0 <= i < |inputs| ==>
                 && (t.replies[i].Win? || t.replies[i].WrongGuess?)
                 && (t.replies[i].Win? <==> Matches(inputs[i].event.data, s.randomNumber))
                 && t.replies[i].attempts == s.attempts + WrongCount(s.randomNumber, inputs[..i])
    decreases |inputs|
  {
    if |inputs| > 0 {
      var s := store[c];
      var o := Step(store, inputs[0]);
      GuessInRound(store, c, inputs[0].event.data, inputs[0].draw);
      assert GuessesIn(inputs[1..], c) by {
        forall i | 0 <= i < |inputs[1..]| ensures inputs[1..][i] == inputs[i + 1] { }
      }
      RoundOfGuesses(o.store, c, inputs[1..]);
      var t := Run(store, inputs);
      var rest := Run(o.store, inputs[1..]);
      assert t.replies == [o.reply] + rest.replies;
      forall i | 0 <= i < |inputs|
        ensures t.replies[i].attempts == s.attempts + WrongCount(s.randomNumber, inputs[..i])
      {
        if i > 0 {
          assert inputs[..i][0] == inputs[0];
          assert inputs[..i][1..] == inputs[1..][..i - 1];
          assert t.replies[i] == rest.replies[i - 1];
        }
      }
    }
  }

  /** In a fresh round, a wrong guess reports how many wrong guesses have been made, itself included. */
  lemma FreshRoundCounts(store: Store, c: ChatId, secret: Digit, inputs: seq<Input>, i: nat)
    requires GuessesIn(inputs, c) && i < |inputs|
    requires !Matches(inputs[i].event.data, secret)
    ensures Run(StartGame(store, c, secret), inputs).replies[i] == WrongGuess(WrongCount(secret, inputs[..i + 1]))
  {
    RoundOfGuesses(StartGame(store, c, secret), c, inputs);
    WrongCountSnoc(secret, inputs[..i], inputs[i]);
    assert inputs[..i] + [inputs[i]] == inputs[..i + 1];
  }

  lemma {:induction false} WrongCountSnoc(secret: int, inputs: seq<Input>, last: Input)
    ensures WrongCount(secret, inputs + [last])
         == WrongCount(secret, inputs) + (if last.event.Press? && !Matches(last.event.data, secret) then 1 else 0)
    decreases |inputs|
  {
    if |inputs| > 0 {
      assert (inputs + [last])[1..] == inputs[1..] + [last];
      WrongCountSnoc(secret, inputs[1..], last);
    }
  }

  // ---- Rendering ----

  /** One outgoing message: its text and the keypad attached to it, if any. */
  datatype Send = Send(text: string, keypad: Option<Keyboard>)

  /**
   * The messages `bot.sendMessage` is called with for a reply, in order.
   * The game's replies read as their templates promise: the sender's name,
   * the secret and the counts appear in decimal where their placeholders
   * were.
   */
  function Render(r: Reply): (out: seq<Send>)
    ensures r.Greeting? ==> out == [Send(StartMessage, None)]
    ensures r.Help? ==> out == [Send(HelpMessage, None)]
    ensures r.Unknown? ==> out == [Send(DefaultMessage, None)]
    ensures r.StartFirst? ==> out == [Send(StartFirstText, None)]
    ensures r.Info? ==> out == [Send(InfoPrefix + r.name, None)]
    ensures r.Win? ==> out == [Send(WinHead + ShowInt(r.randomNumber) + WinMiddle + ShowInt(r.attempts), None)]
    ensures r.WrongGuess? ==> out == [Send(WrongHead + ShowInt(r.attempts), Some(GameOptions))]
    ensures r.RoundStarted? ==> out == [Send(GameStartMessage, None), Send(GuessNumberMessage, Some(GameOptions))]
  {
    match r
    case Greeting => [Send(LocalizeEntry(StartKey, []), None)]
    case Info(name) =>
      LocalizeInfo(name);
      [Send(LocalizeEntry(InfoKey, [("name", name)]), None)]
    case RoundStarted =>
      [Send(LocalizeEntry(GameStartKey, []), None), Send(LocalizeEntry(GuessNumberKey, []), Some(GameOptions))]
    case Help => [Send(LocalizeEntry(HelpKey, []), None)]
    case Unknown => [Send(LocalizeEntry(DefaultKey, []), None)]
    case StartFirst => [Send(StartFirstText, None)]
    case Win(n, a) =>
      LocalizeWin(n, a);
      [Send(LocalizeEntry(WinKey, [("randomNumber", ShowInt(n)), ("attempts", ShowInt(a))]), None)]
    case WrongGuess(a) =>
      LocalizeWrongGuess(a);
      [Send(LocalizeEntry(WrongGuessKey, [("attempts", ShowInt(a))]), Some(GameOptions))]
  }

  /**
   * The keypad goes out with the guessing prompt of a new round and with
   * every wrong-guess reply, and with nothing else; it is always `gameOptions`.
   */
  lemma RenderKeypad(r: Reply)
    ensures (exists k :: 0 <= k < |Render(r)| && Render(r)[k].keypad.Some?) <==> (r.RoundStarted? || r.WrongGuess?)
    ensures forall k :: 0 <= k < |Render(r)| && Render(r)[k].keypad.Some? ==> Render(r)[k].keypad.value == GameOptions
  {
    if r.RoundStarted? {
      assert Render(r)[1].keypad.Some?;
    } else if r.WrongGuess? {
      assert Render(r)[0].keypad.Some?;
    }
  }

  // ---- Scenarios ----

  /** Secret 4: guessing 2 is wrong and moves the count to 2, then guessing 4 wins at attempt 2. */
  lemma ScenarioGuessTwice(store: Store, c: ChatId)
    ensures var s1 := StartGame(store, c, 4);
            var o2 := HandleCallback(s1, c, "2", 0);
            var o3 := HandleCallback(o2.store, c, "4", 0);
            && o2.reply == WrongGuess(1) && o2.store[c] == Session(4, 2)
            && o3.reply == Win(4, 2) && o3.store == o2.store
  {
  }

  /** `/again` during a round discards the old session for a fresh one. */
  lemma ScenarioAgain(c: ChatId, previous: Session, secret: Digit)
    ensures HandleCallback(map[c := previous], c, Again, secret) == Outcome(map[c := Session(secret, 1)], RoundStarted)
  {
  }
}
