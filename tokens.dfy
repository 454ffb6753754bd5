/** `check_tokens`: the start-up check that the three settings the bot
    needs are present. */
module Tokens {
  import opened Results
  import PyJson

  /** The three module globals filled from the environment by
      `os.getenv` (None when the variable is unset). */
  datatype Settings = Settings(
    practicumToken: Option<string>,
    telegramToken: Option<string>,
    telegramChatId: Option<string>)

  /** `required_tokens`, in declaration order. */
  const REQUIRED_TOKENS: seq<string> := ["PRACTICUM_TOKEN", "TELEGRAM_TOKEN", "TELEGRAM_CHAT_ID"]

  const MISSING_PREFIX: string := "Отсутствуют переменные окружения: "

  /** `globals()[name]` for one of the required names. */
  function Global(settings: Settings, name: string): Option<string>
    requires name in REQUIRED_TOKENS
  {
    if name == "PRACTICUM_TOKEN" then settings.practicumToken
    else if name == "TELEGRAM_TOKEN" then settings.telegramToken
    else settings.telegramChatId
  }

  /** `not value`: an unset variable and an empty string are both falsy. */
  predicate Falsy(value: Option<string>) {
    value == None || value == Some("")
  }

  predicate AllRequired(names: seq<string>) {
    forall k :: 0 <= k < |names| ==> names[k] in REQUIRED_TOKENS
  }

  /** The list comprehension of `check_tokens`: the names, in order, whose
      global is falsy. */
  function Missing(settings: Settings, names: seq<string>): (r: seq<string>)
    requires AllRequired(names)
    ensures |r| <= |names|
    ensures forall k :: 0 <= k < |r| ==> r[k] in names && Falsy(Global(settings, r[k]))
  {
    if names == [] then []
    else (if Falsy(Global(settings, names[0])) then [names[0]] else []) + Missing(settings, names[1..])
  }

  /** `missing_tokens` as `check_tokens` computes it. */
  function MissingTokens(settings: Settings): (r: seq<string>)
    ensures |r| <= |REQUIRED_TOKENS|
    ensures forall k :: 0 <= k < |r| ==> r[k] in REQUIRED_TOKENS && Falsy(Global(settings, r[k]))
  {
    Missing(settings, REQUIRED_TOKENS)
  }

  /** A name is reported exactly when it is one of the names asked about
      and its global is falsy. */
  lemma {:induction false} MissingMembers(settings: Settings, names: seq<string>, name: string)
    requires AllRequired(names)
    ensures name in Missing(settings, names) <==> name in names && Falsy(Global(settings, name))
  {
    if names != [] {
      MissingMembers(settings, names[1..], name);
      assert names == [names[0]] + names[1..];
    }
  }

  /** Filtering splits over concatenation, so the report keeps the order
      of the names asked about. */
  lemma {:induction false} MissingAppend(settings: Settings, a: seq<string>, b: seq<string>)
    requires AllRequired(a) && AllRequired(b)
    ensures AllRequired(a + b)
    ensures Missing(settings, a + b) == Missing(settings, a) + Missing(settings, b)
  {
    if a == [] {
      assert a + b == b;
    } else {
      assert (a + b)[0] == a[0];
      assert (a + b)[1..] == a[1..] + b;
      MissingAppend(settings, a[1..], b);
    }
  }

  /** `check_tokens()`: raises ValueError naming the missing settings, or
      returns normally. */
  function CheckTokens(settings: Settings): (r: Outcome<string>)
    ensures r.Fail? <==>
      Falsy(settings.practicumToken) || Falsy(settings.telegramToken) || Falsy(settings.telegramChatId)
    ensures r.Fail? ==> r.error == MISSING_PREFIX + PyJson.Join(MissingTokens(settings), ", ")
  {
    var missing := MissingTokens(settings);
    MissingTokensExactly(settings);
    if missing != [] then Fail(MISSING_PREFIX + PyJson.Join(missing, ", ")) else Pass
  }

  /** The report is exactly the falsy settings, in the order of
      `required_tokens`. */
  lemma MissingTokensExactly(settings: Settings)
    ensures MissingTokens(settings) ==
      (if Falsy(settings.practicumToken) then ["PRACTICUM_TOKEN"] else []) +
      (if Falsy(settings.telegramToken) then ["TELEGRAM_TOKEN"] else []) +
      (if Falsy(settings.telegramChatId) then ["TELEGRAM_CHAT_ID"] else [])
  {
    var p, t, c := ["PRACTICUM_TOKEN"], ["TELEGRAM_TOKEN"], ["TELEGRAM_CHAT_ID"];
    assert REQUIRED_TOKENS == p + t + c;
    MissingAppend(settings, p + t, c);
    MissingAppend(settings, p, t);
  }

  /** Every setting present and non-empty: `check_tokens` passes. */
  lemma AllPresentPasses(practicum: string, telegram: string, chat: string)
    requires practicum != "" && telegram != "" && chat != ""
    ensures CheckTokens(Settings(Some(practicum), Some(telegram), Some(chat))) == Pass
  {
  }

  /** An empty chat id alone is reported by its name only. */
  lemma EmptyChatIdReported(practicum: string, telegram: string)
    requires practicum != "" && telegram != ""
    ensures CheckTokens(Settings(Some(practicum), Some(telegram), Some(""))) ==
      Fail("Отсутствуют переменные окружения: " + "TELEGRAM_CHAT_ID")
  {
    MissingTokensExactly(Settings(Some(practicum), Some(telegram), Some("")));
    assert MissingTokens(Settings(Some(practicum), Some(telegram), Some(""))) == ["TELEGRAM_CHAT_ID"];
    assert CheckTokens(Settings(Some(practicum), Some(telegram), Some(""))).Fail?;
  }

  /** Only the Telegram token set: the other two names, in declaration
      order, separated by `, `. */
  lemma TwoMissingReported(telegram: string)
    requires telegram != ""
    ensures CheckTokens(Settings(None, Some(telegram), Some(""))) ==
      Fail(MISSING_PREFIX + "PRACTICUM_TOKEN" + ", " + "TELEGRAM_CHAT_ID")
  {
    var settings := Settings(None, Some(telegram), Some(""));
    var p, c := "PRACTICUM_TOKEN", "TELEGRAM_CHAT_ID";
    MissingTokensExactly(settings);
    assert MissingTokens(settings) == [p, c];
    PyJson.JoinLast([p, c], ", ");
    assert [p, c][..1] == [p];
    assert CheckTokens(settings).error == MISSING_PREFIX + (p + ", " + c);
    assert MISSING_PREFIX + (p + ", " + c) == MISSING_PREFIX + p + ", " + c;
  }

  /** Nothing set: all three names, comma-separated, in declaration order. */
  lemma NothingSetReported()
    ensures CheckTokens(Settings(None, None, None)) ==
      Fail(MISSING_PREFIX + "PRACTICUM_TOKEN" + ", " + "TELEGRAM_TOKEN" + ", " + "TELEGRAM_CHAT_ID")
  {
    var settings := Settings(None, None, None);
    MissingTokensExactly(settings);
    assert MissingTokens(settings) == ["PRACTICUM_TOKEN", "TELEGRAM_TOKEN", "TELEGRAM_CHAT_ID"];
    var p, t, c := "PRACTICUM_TOKEN", "TELEGRAM_TOKEN", "TELEGRAM_CHAT_ID";
    PyJson.JoinThree(p, t, c, ", ");
    assert CheckTokens(settings).error == MISSING_PREFIX + (p + ", " + t + ", " + c);
    assert MISSING_PREFIX + (p + ", " + t + ", " + c) == MISSING_PREFIX + p + ", " + t + ", " + c;
  }
}
