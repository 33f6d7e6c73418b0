/** The bot's own exception for a configuration value that is missing. */
module BotExceptions {
  import opened Wrappers

  /** `IncorrectEnvironmentVariableValue(message)`: the constructor keeps the message as given. */
  datatype IncorrectEnvironmentVariableValue = IncorrectEnvironmentVariableValue(message: string)

  /** The class name followed by a colon and a space, which every rendering starts with. */
  const Prefix := "IncorrectEnvironmentVariableValue: "

  /** `__str__`: the class name, then the stored message. */
  function Render(e: IncorrectEnvironmentVariableValue): (s: string)
    ensures |s| == |Prefix| + |e.message|
    ensures s[..|Prefix|] == Prefix
    ensures s[|Prefix|..] == e.message
  {
    Prefix + e.message
  }

  /** The message a rendered text carries: the text with the class-name prefix dropped. */
  function MessageOf(s: string): Option<string> {
    if |s| >= |Prefix| && s[..|Prefix|] == Prefix then Some(s[|Prefix|..]) else None
  }

  /** Dropping the prefix from a rendering gives back the stored message. */
  lemma MessageOfRender(e: IncorrectEnvironmentVariableValue)
    ensures MessageOf(Render(e)) == Some(e.message)
  {
  }

  /** Every text that carries a message is the rendering of the exception holding that message. */
  lemma RenderOfMessageOf(s: string)
    requires MessageOf(s).Some?
    ensures Render(IncorrectEnvironmentVariableValue(MessageOf(s).value)) == s
  {
    assert s == s[..|Prefix|] + s[|Prefix|..];
  }
}
