/**
 * The bot's entry module: the startup check that every configuration value
 * is set, and the verdict table.
 */
module Homework {
  import opened Wrappers
  import opened BotExceptions

  /** `HOMEWORK_VERDICTS`: the text shown for each review status. */
  const HomeworkVerdicts: map<string, string> := map[
    "approved" := "Работа проверена: ревьюеру всё понравилось. Ура!",
    "reviewing" := "Работа взята на проверку ревьюером.",
    "rejected" := "Работа проверена: у ревьюера есть замечания."]

  lemma VerdictKeys()
    ensures HomeworkVerdicts.Keys == {"approved", "reviewing", "rejected"}
  {
  }

  /** A class attribute as `vars(AppConfig)` lists it: its name and its value (a string or None). */
  type Attribute = (string, Option<string>)

  predicate IsDunder(name: string) {
    |name| >= 2 && name[0] == '_' && name[1] == '_'
  }

  /** `not value` for a string or None. */
  predicate IsFalsy(value: Option<string>) {
    value.None? || value.value == ""
  }

  /**
   * `vars(AppConfig)` for the four values `os.getenv` returned, in the order
   * the class body assigns them.  Of the entries Python adds, `__module__`
   * and `__doc__` are shown; the class has no docstring, so `__doc__` is None
   * and would be reported if it were not filtered out.
   */
  function AppConfigVars(practicumToken: Option<string>, practicumApiUrl: Option<string>,
                         telegramToken: Option<string>, telegramChatId: Option<string>): seq<Attribute> {
    [("__module__", Some("config")),
     ("PRACTICUM_TOKEN", practicumToken),
     ("PRACTICUM_API_URL", practicumApiUrl),
     ("TELEGRAM_TOKEN", telegramToken),
     ("TELEGRAM_CHAT_ID", telegramChatId),
     ("__doc__", None)]
  }

  /** The dict comprehension in `check_tokens`: the attributes whose names do not start with `__`, in order. */
  function Config(attributes: seq<Attribute>): (c: seq<Attribute>)
    ensures |c| <= |attributes|
  {
    if attributes == [] then []
    else
      var last := attributes[|attributes| - 1];
      Config(attributes[..|attributes| - 1]) + (if IsDunder(last.0) then [] else [last])
  }

  /** The comprehension keeps exactly the attributes whose names do not start with `__`. */
  lemma {:induction false} ConfigMeaning(attributes: seq<Attribute>)
    ensures forall a :: a in Config(attributes) <==> a in attributes && !IsDunder(a.0)
  {
    if attributes != [] {
      var init := attributes[..|attributes| - 1];
      ConfigMeaning(init);
      assert attributes == init + [attributes[|attributes| - 1]];
    }
  }

  /** The line `check_tokens` writes for a value that is not set. */
  function MissingLine(key: string): string {
    "Не инициализировано значение переменной окружения " + key + "\n"
  }

  /** `error_message` after the loop has gone over `config`. */
  function ErrorMessage(config: seq<Attribute>): (m: string)
    ensures m == "" || m[|m| - 1] == '\n'
  {
    if config == [] then ""
    else
      var last := config[|config| - 1];
      ErrorMessage(config[..|config| - 1]) + (if IsFalsy(last.1) then MissingLine(last.0) else "")
  }

  /** The names whose values are not set, in order. */
  function MissingKeys(config: seq<Attribute>): seq<string> {
    if config == [] then []
    else
      var last := config[|config| - 1];
      MissingKeys(config[..|config| - 1]) + (if IsFalsy(last.1) then [last.0] else [])
  }

  /** One `MissingLine` per key, in order. */
  function Lines(keys: seq<string>): string {
    if keys == [] then "" else Lines(keys[..|keys| - 1]) + MissingLine(keys[|keys| - 1])
  }

  // ---------------------------------------------------------------------
  // What the message holds

  /** The message is exactly one line per unset value, in attribute order. */
  lemma {:induction false} ErrorMessageLines(config: seq<Attribute>)
    ensures ErrorMessage(config) == Lines(MissingKeys(config))
  {
    if config != [] {
      var init := config[..|config| - 1];
      ErrorMessageLines(init);
      var keys := MissingKeys(init);
      if IsFalsy(config[|config| - 1].1) {
        var k := config[|config| - 1].0;
        assert (keys + [k])[..|keys|] == keys;
      } else {
        assert keys + [] == keys;
      }
    }
  }

  /** Every unset value is reported, not only the first, and nothing else is. */
  lemma {:induction false} MissingKeysMeaning(config: seq<Attribute>)
    ensures forall k :: k in MissingKeys(config) <==>
              exists i :: 0 <= i < |config| && config[i].0 == k && IsFalsy(config[i].1)
  {
    if config != [] {
      var n := |config| - 1;
      var init := config[..n];
      MissingKeysMeaning(init);
      assert forall i :: 0 <= i < n ==> init[i] == config[i];
      forall k ensures k in MissingKeys(config) <==>
                       exists i :: 0 <= i < |config| && config[i].0 == k && IsFalsy(config[i].1)
      {
        if exists i :: 0 <= i < |config| && config[i].0 == k && IsFalsy(config[i].1) {
          var i :| 0 <= i < |config| && config[i].0 == k && IsFalsy(config[i].1);
          if i < n {
            assert init[i] == config[i];
          }
        }
      }
    }
  }

  /** The message is empty exactly when every value is set; when it is not, it ends with a newline. */
  lemma {:induction false} ErrorMessageEmpty(config: seq<Attribute>)
    ensures ErrorMessage(config) == "" <==> forall i :: 0 <= i < |config| ==> !IsFalsy(config[i].1)
    ensures ErrorMessage(config) != "" ==> ErrorMessage(config)[|ErrorMessage(config)| - 1] == '\n'
  {
    if config != [] {
      var n := |config| - 1;
      var init := config[..n];
      ErrorMessageEmpty(init);
      assert forall i :: 0 <= i < n ==> init[i] == config[i];
      if !IsFalsy(config[n].1) {
        assert ErrorMessage(config) == ErrorMessage(init);
      }
    }
  }

  /** Attributes whose names start with `__` are never reported. */
  lemma DundersNotReported(attributes: seq<Attribute>, k: string)
    requires IsDunder(k)
    ensures k !in MissingKeys(Config(attributes))
  {
    ConfigMeaning(attributes);
    MissingKeysMeaning(Config(attributes));
  }

  /** The attributes `check_tokens` looks at are exactly the four configuration values, in order. */
  lemma AppConfigChecked(practicumToken: Option<string>, practicumApiUrl: Option<string>,
                         telegramToken: Option<string>, telegramChatId: Option<string>)
    ensures Config(AppConfigVars(practicumToken, practicumApiUrl, telegramToken, telegramChatId)) ==
              [("PRACTICUM_TOKEN", practicumToken),
               ("PRACTICUM_API_URL", practicumApiUrl),
               ("TELEGRAM_TOKEN", telegramToken),
               ("TELEGRAM_CHAT_ID", telegramChatId)]
  {
    var a0 := ("__module__", Some("config"));
    var a1 := ("PRACTICUM_TOKEN", practicumToken);
    var a2 := ("PRACTICUM_API_URL", practicumApiUrl);
    var a3 := ("TELEGRAM_TOKEN", telegramToken);
    var a4 := ("TELEGRAM_CHAT_ID", telegramChatId);
    var a5 := ("__doc__", None);
    assert IsDunder(a0.0) && IsDunder(a5.0);
    assert !IsDunder(a1.0) && !IsDunder(a2.0) && !IsDunder(a3.0) && !IsDunder(a4.0);
    ConfigAppend([], a0);
    assert Config([a0]) == [] by { assert [] + [a0] == [a0]; }
    ConfigAppend([a0], a1);
    assert Config([a0, a1]) == [a1] by { assert [a0] + [a1] == [a0, a1]; }
    ConfigAppend([a0, a1], a2);
    assert Config([a0, a1, a2]) == [a1, a2] by { assert [a0, a1] + [a2] == [a0, a1, a2]; }
    ConfigAppend([a0, a1, a2], a3);
    assert Config([a0, a1, a2, a3]) == [a1, a2, a3] by { assert [a0, a1, a2] + [a3] == [a0, a1, a2, a3]; }
    ConfigAppend([a0, a1, a2, a3], a4);
    assert Config([a0, a1, a2, a3, a4]) == [a1, a2, a3, a4] by { assert [a0, a1, a2, a3] + [a4] == [a0, a1, a2, a3, a4]; }
    ConfigAppend([a0, a1, a2, a3, a4], a5);
    assert [a0, a1, a2, a3, a4] + [a5] == AppConfigVars(practicumToken, practicumApiUrl, telegramToken, telegramChatId);
  }

  lemma ConfigAppend(init: seq<Attribute>, last: Attribute)
    ensures Config(init + [last]) == Config(init) + (if IsDunder(last.0) then [] else [last])
  {
    assert (init + [last])[..|init|] == init;
  }

  // ---------------------------------------------------------------------
  // check_tokens

  /**
   * `check_tokens()`: returns when every configuration value is set, and
   * otherwise raises with the message listing every value that is not.
   */
  method CheckTokens(attributes: seq<Attribute>) returns (r: Outcome<IncorrectEnvironmentVariableValue>)
    ensures r.Fail? <==> exists i :: 0 <= i < |attributes| && !IsDunder(attributes[i].0) && IsFalsy(attributes[i].1)
    ensures r.Fail? ==> r.error == IncorrectEnvironmentVariableValue(ErrorMessage(Config(attributes)))
  {
    var config := Config(attributes);
    var errorMessage := "";
    var i := 0;
    while i < |config|
      invariant 0 <= i <= |config|
      invariant errorMessage == ErrorMessage(config[..i])
    {
      var (key, value) := config[i];
      assert config[..i + 1][..i] == config[..i];
      if value.None? || value.value == "" {
        errorMessage := errorMessage + MissingLine(key);
      }
      i := i + 1;
    }
    assert config[..i] == config;
    ConfigMeaning(attributes);
    ErrorMessageEmpty(config);
    if exists i :: 0 <= i < |attributes| && !IsDunder(attributes[i].0) && IsFalsy(attributes[i].1) {
      var j :| 0 <= j < |attributes| && !IsDunder(attributes[j].0) && IsFalsy(attributes[j].1);
      assert attributes[j] in config;
    }
    forall j | 0 <= j < |config| && IsFalsy(config[j].1)
      ensures exists i :: 0 <= i < |attributes| && !IsDunder(attributes[i].0) && IsFalsy(attributes[i].1)
    {
      assert config[j] in config;
    }
    if errorMessage != "" {
      return Fail(IncorrectEnvironmentVariableValue(errorMessage));
    }
    return Pass;
  }
}
