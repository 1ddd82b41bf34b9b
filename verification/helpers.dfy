/**
 * The helper module of the bot: the `MESSAGES` template table,
 * `localizeMessage`, the range of `getRandomNumber`, and the inline
 * keyboard `gameOptions` shown with every guessing prompt.
 */
module Helpers {
  import opened Wrappers
  import opened Text

  // ---- Message templates ----

  const StartMessage := "Привет, это бот Усмана"
  const InfoPrefix := "Твое имя "
  const InfoMessage := InfoPrefix + "{name}"
  const GameStartMessage := "Сейчас я загадаю число от 0 до 9, а ты должен его угадать!"
  const GuessNumberMessage := "Отгадывай!"
  // The longer fixed texts are written in pieces, which the verifier can inspect cheaply.
  const WinHead := "Ты угадал, " + "МОЛОДЕЦ! " + "Было загадано " + "число "
  const WinMiddle := ". Попыток: "
  const WinMessage := WinHead + "{randomNumber}" + WinMiddle + "{attempts}"
  const WrongHead := "К сожалению, " + "ты не угадал. " + "Попробуй еще раз! " + "Попыток: "
  const WrongGuessMessage := WrongHead + "{attempts}"
  const DefaultMessage := "Извините, я не понимаю ваш запрос. Воспользуйтесь командой /help для получения списка команд."
  const HelpMessage := "Доступные команды:\n/start - Начальное приветствие\n/info - Информация о вас\n/game - Угадай число\n/help - Список команд"

  /** The entries of the `MESSAGES` table. */
  datatype MessageKey =
    | StartKey | InfoKey | GameStartKey | GuessNumberKey | WinKey | WrongGuessKey | DefaultKey | HelpKey

  /** The property name under which an entry is stored in `MESSAGES`. */
  function KeyName(k: MessageKey): string
  {
    match k
    case StartKey => "start_message"
    case InfoKey => "info_message"
    case GameStartKey => "game_start_message"
    case GuessNumberKey => "guess_number_message"
    case WinKey => "win_message"
    case WrongGuessKey => "wrong_guess_message"
    case DefaultKey => "default_message"
    case HelpKey => "help_message"
  }

  /** The template stored for an entry. */
  function Messages(k: MessageKey): string
  {
    match k
    case StartKey => StartMessage
    case InfoKey => InfoMessage
    case GameStartKey => GameStartMessage
    case GuessNumberKey => GuessNumberMessage
    case WinKey => WinMessage
    case WrongGuessKey => WrongGuessMessage
    case DefaultKey => DefaultMessage
    case HelpKey => HelpMessage
  }

  /** The entry, if any, that a property name selects. */
  function Lookup(name: string): (r: Option<MessageKey>)
    ensures r.Some? ==> KeyName(r.value) == name
    ensures r.None? ==> forall k :: KeyName(k) != name
  {
    if name == "start_message" then Some(StartKey)
    else if name == "info_message" then Some(InfoKey)
    else if name == "game_start_message" then Some(GameStartKey)
    else if name == "guess_number_message" then Some(GuessNumberKey)
    else if name == "win_message" then Some(WinKey)
    else if name == "wrong_guess_message" then Some(WrongGuessKey)
    else if name == "default_message" then Some(DefaultKey)
    else if name == "help_message" then Some(HelpKey)
    else None
  }

  /** Every entry is found again under its own name: the names are distinct. */
  lemma LookupKeyName(k: MessageKey)
    ensures Lookup(KeyName(k)) == Some(k)
  {
  }

  /** `MESSAGES[key] || ''`: the template for `key`, or the empty string for an unknown key. */
  function Template(key: string): (t: string)
    ensures forall k :: KeyName(k) == key ==> t == Messages(k)
    ensures (forall k :: KeyName(k) != key) ==> t == ""
  {
    match Lookup(key)
    case Some(k) =>
      assert forall k' :: KeyName(k') == key ==> k' == k by {
        forall k' | KeyName(k') == key ensures k' == k { LookupKeyName(k'); }
      }
      Messages(k)
    case None => ""
  }

  /** The text `{name}` that stands for parameter `name` in a template. */
  function Placeholder(name: string): (p: string)
    ensures |p| == |name| + 2 && p[0] == '{'
  {
    "{" + name + "}"
  }

  /**
   * The parameters of one call, as `Object.entries(params)` lists them:
   * name/value pairs in insertion order, values already rendered as text.
   */
  type Params = seq<(string, string)>

  /**
   * Applies each parameter in order, replacing the first occurrence of its
   * placeholder. An empty message stays empty, and a message holding none of
   * the placeholders comes back as it was.
   */
  function Substitute(message: string, params: Params): (r: string)
    ensures message == "" ==> r == ""
    ensures (forall i :: 0 <= i < |params| ==> Absent(message, Placeholder(params[i].0))) ==> r == message
    decreases |params|
  {
    if |params| == 0 then message
    else Substitute(ReplaceFirst(message, Placeholder(params[0].0), params[0].1), params[1..])
  }

  /**
   * `localizeMessage(key, params)`: the template of a known key with the
   * parameters filled in, and the empty string for an unknown key.
   */
  function Localize(key: string, params: Params): (r: string)
    ensures forall k :: KeyName(k) == key ==> r == Substitute(Messages(k), params)
    ensures (forall k :: KeyName(k) != key) ==> r == ""
  {
    Substitute(Template(key), params)
  }

  /** `localizeMessage` for a key known to be in the table, as every call site in the bot passes. */
  function LocalizeEntry(k: MessageKey, params: Params): string
  {
    Substitute(Messages(k), params)
  }

  /** Localizing by an entry's name is localizing that entry. */
  lemma LocalizeByName(k: MessageKey, params: Params)
    ensures Localize(KeyName(k), params) == LocalizeEntry(k, params)
  {
  }

  /** The info template splits into its fixed prefix and the `{name}` placeholder. */
  lemma TemplateInfo()
    ensures Messages(InfoKey) == InfoMessage == InfoPrefix + Placeholder("name") + ""
    ensures '{' !in InfoPrefix
  {
  }

  /** The win template, whose fixed parts hold no opening brace. */
  lemma TemplateWin()
    ensures Messages(WinKey) == WinMessage
    ensures '{' !in WinHead && '{' !in WinMiddle
  {
  }

  /** The win template around its first placeholder. */
  lemma WinTemplateSplit()
    ensures WinMessage == WinHead + Placeholder("randomNumber") + (WinMiddle + Placeholder("attempts"))
    ensures '{' !in WinHead
  {
  }

  /** The wrong-guess template: a fixed prefix and the `{attempts}` placeholder. */
  lemma TemplateWrongGuess()
    ensures Messages(WrongGuessKey) == WrongGuessMessage == WrongHead + Placeholder("attempts") + ""
    ensures '{' !in WrongHead
  {
  }

  /** Substituting a single parameter is one first-occurrence replacement. */
  lemma SubstituteOne(message: string, name: string, value: string)
    ensures Substitute(message, [(name, value)]) == ReplaceFirst(message, Placeholder(name), value)
  {
  }

  /** Two parameters are applied in the order given. */
  lemma SubstituteTwo(message: string, name1: string, value1: string, name2: string, value2: string)
    ensures Substitute(message, [(name1, value1), (name2, value2)])
         == ReplaceFirst(ReplaceFirst(message, Placeholder(name1), value1), Placeholder(name2), value2)
  {
    assert [(name1, value1), (name2, value2)][1..] == [(name2, value2)];
    SubstituteOne(ReplaceFirst(message, Placeholder(name1), value1), name2, value2);
  }

  /** An empty message stays empty whatever parameters are applied. */
  lemma {:induction false} SubstituteEmpty(params: Params)
    ensures Substitute("", params) == ""
    decreases |params|
  {
    if |params| > 0 {
      ReplaceFirstInEmpty(Placeholder(params[0].0), params[0].1);
      SubstituteEmpty(params[1..]);
    }
  }

  /** An unknown key localizes to the empty string, whatever parameters are passed. */
  lemma LocalizeUnknownKey(key: string, params: Params)
    requires forall k :: KeyName(k) != key
    ensures Localize(key, params) == ""
  {
    SubstituteEmpty(params);
  }

  /** Without parameters a known key localizes to its template verbatim. */
  lemma LocalizeNoParams(k: MessageKey)
    ensures Localize(KeyName(k), []) == Messages(k)
  {
  }

  /** A parameter whose placeholder does not occur leaves the message unchanged. */
  lemma SubstituteSkipsAbsent(message: string, name: string, value: string, rest: Params)
    requires Absent(message, Placeholder(name))
    ensures Substitute(message, [(name, value)] + rest) == Substitute(message, rest)
  {
  }

  /** A parameter replaces only the first occurrence of its placeholder: later ones stay. */
  lemma SubstituteFirstOnly(pre: string, name: string, mid: string, post: string, value: string)
    requires '{' !in pre
    ensures Substitute(pre + Placeholder(name) + (mid + Placeholder(name) + post), [(name, value)])
         == pre + value + (mid + Placeholder(name) + post)
  {
    ReplaceFirstOnlyOnce(pre, Placeholder(name), mid, post, value);
    SubstituteOne(pre + Placeholder(name) + (mid + Placeholder(name) + post), name, value);
  }

  /**
   * The info message is the fixed prefix followed by the user's name. The
   * name is inserted literally: `$` patterns are not interpreted.
   */
  lemma LocalizeInfo(name: string)
    ensures LocalizeEntry(InfoKey, [("name", name)]) == InfoPrefix + name
  {
    TemplateInfo();
    ReplaceFirstAfter(InfoPrefix, Placeholder("name"), "", name);
    SubstituteOne(InfoMessage, "name", name);
  }

  /** The first step of filling the win template: the secret goes where `{randomNumber}` was. */
  lemma FillWinSecret(n: string)
    ensures ReplaceFirst(WinMessage, Placeholder("randomNumber"), n) == WinHead + n + WinMiddle + Placeholder("attempts")
  {
    WinTemplateSplit();
    ReplaceFirstAfter(WinHead, Placeholder("randomNumber"), WinMiddle + Placeholder("attempts"), n);
  }

  /** The second step: the count goes where `{attempts}` was, since the secret holds no brace. */
  lemma FillWinAttempts(n: string, a: string)
    requires '{' !in n
    ensures ReplaceFirst(WinHead + n + WinMiddle + Placeholder("attempts"), Placeholder("attempts"), a) == WinHead + n + WinMiddle + a
  {
    TemplateWin();
    var once := WinHead + n + WinMiddle;
    assert WinHead + n + WinMiddle + Placeholder("attempts") == once + Placeholder("attempts") + "";
    ReplaceFirstAfter(once, Placeholder("attempts"), "", a);
  }

  /** Filling the win template with two values, the first of which cannot start a placeholder. */
  lemma FillWin(n: string, a: string)
    requires '{' !in n
    ensures LocalizeEntry(WinKey, [("randomNumber", n), ("attempts", a)]) == WinHead + n + WinMiddle + a
  {
    FillWinSecret(n);
    FillWinAttempts(n, a);
    SubstituteTwo(WinMessage, "randomNumber", n, "attempts", a);
  }

  /** The win message shows the secret and then the attempt count, each where its placeholder was. */
  lemma LocalizeWin(secret: int, attempts: int)
    ensures LocalizeEntry(WinKey, [("randomNumber", ShowInt(secret)), ("attempts", ShowInt(attempts))])
         == WinHead + ShowInt(secret) + WinMiddle + ShowInt(attempts)
  {
    NoBraceInShowInt(secret);
    FillWin(ShowInt(secret), ShowInt(attempts));
  }

  /** The wrong-guess message is the fixed text followed by the attempt count. */
  lemma LocalizeWrongGuess(attempts: int)
    ensures LocalizeEntry(WrongGuessKey, [("attempts", ShowInt(attempts))]) == WrongHead + ShowInt(attempts)
  {
    TemplateWrongGuess();
    ReplaceFirstAfter(WrongHead, Placeholder("attempts"), "", ShowInt(attempts));
    SubstituteOne(WrongGuessMessage, "attempts", ShowInt(attempts));
  }

  // ---- The secret number ----

  /**
   * `Math.floor(Math.random() * 10)` for a draw `r` in [0, 1): a digit,
   * namely the one whose tenth of the unit interval contains `r`.
   */
  function RandomNumber(r: real): (n: int)
    requires 0.0 <= r < 1.0
    ensures 0 <= n <= 9
    ensures n as real <= r * 10.0 < n as real + 1.0
  {
    (r * 10.0).Floor
  }

  /** Every digit is drawn: `d` comes from the draw d/10. */
  lemma RandomNumberCovers(d: int)
    requires 0 <= d <= 9
    ensures RandomNumber(d as real / 10.0) == d
  {
  }

  /** What `getRandomNumber` can return: the digits 0 to 9. */
  type Digit = n: int | 0 <= n <= 9

  // ---- The keypad ----

  /** One inline button: the label shown and the payload sent back when it is pressed. */
  datatype Button = Button(text: string, callbackData: string)

  /** An inline keyboard: rows of buttons, top to bottom. */
  type Keyboard = seq<seq<Button>>

  /** `gameOptions`: the ten digits in rows of three, the last row holding only 9. */
  const GameOptions: Keyboard := [
    [Button("0", "0"), Button("1", "1"), Button("2", "2")],
    [Button("3", "3"), Button("4", "4"), Button("5", "5")],
    [Button("6", "6"), Button("7", "7"), Button("8", "8")],
    [Button("9", "9")]
  ]

  /** The buttons of a keyboard, row by row, left to right. */
  function Buttons(k: Keyboard): (bs: seq<Button>)
    ensures |k| > 0 ==> bs == k[0] + Buttons(k[1..])
  {
    if |k| == 0 then [] else k[0] + Buttons(k[1..])
  }

  /** The keypad has four rows of sizes 3, 3, 3 and 1, the last being the single button 9. */
  lemma KeypadShape()
    ensures |GameOptions| == 4
    ensures |GameOptions[0]| == 3 && |GameOptions[1]| == 3 && |GameOptions[2]| == 3 && |GameOptions[3]| == 1
    ensures GameOptions[3] == [Button("9", "9")]
  {
  }

  /**
   * The keypad holds exactly ten buttons, the i-th labelled with the digit i,
   * and each button's payload is its own label.
   */
  lemma KeypadButtons()
    ensures |Buttons(GameOptions)| == 10
    ensures forall i :: 0 <= i < 10 ==> Buttons(GameOptions)[i].text == Show(i)
    ensures forall b :: b in Buttons(GameOptions) ==> b.callbackData == b.text
  {
  }

  /** Pressing the i-th button sends a payload that parses to i, so every digit can be guessed. */
  lemma KeypadPayloadsParse()
    ensures forall i :: 0 <= i < |Buttons(GameOptions)| ==> ParseDecimal(Buttons(GameOptions)[i].callbackData) == Some(i)
  {
    KeypadButtons();
    forall i | 0 <= i < 10
      ensures ParseDecimal(Buttons(GameOptions)[i].callbackData) == Some(i)
    {
      ParseShow(i);
    }
  }
}
