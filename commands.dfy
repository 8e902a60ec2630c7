/** The five commands of the front end and how their names are read. */
module Commands {
  import opened Types
  import opened Text

  datatype ServiceCommand = Status | Connect | Disconnect | Reconnect | Info

  /** The lower-case spelling that names each command. */
  function Name(c: ServiceCommand): string {
    match c
    case Status => "status"
    case Connect => "connect"
    case Disconnect => "disconnect"
    case Reconnect => "reconnect"
    case Info => "info"
  }

  /** `ServiceCommand::from_str`: the text is lower-cased and matched against the five
      names; any other text is an invalid command, reported in its lower-cased form. */
  function Parse(s: string): (r: Result<ServiceCommand, ControllerError>)
    ensures forall c :: r == Success(c) <==> ToLower(s) == Name(c)
    ensures r.Failure? <==> (forall c :: ToLower(s) != Name(c))
    ensures r.Failure? ==> r.error == InvalidCommand(ToLower(s))
  {
    var lower := ToLower(s);
    if lower == "status" then Success(Status)
    else if lower == "connect" then Success(ServiceCommand.Connect)
    else if lower == "disconnect" then Success(ServiceCommand.Disconnect)
    else if lower == "reconnect" then Success(Reconnect)
    else if lower == "info" then Success(Info)
    else Failure(InvalidCommand(lower))
  }

  /** Strings that differ only in letter case parse alike. */
  lemma ParseIgnoresCase(s: string, t: string)
    requires EqualIgnoringCase(s, t)
    ensures Parse(s) == Parse(t)
  {
    assert ToLower(s) == ToLower(t);
  }

  lemma NameIsLowerCase(c: ServiceCommand)
    ensures ToLower(Name(c)) == Name(c)
  {
    var n := Name(c);
    forall i | 0 <= i < |n|
      ensures LowerChar(n[i]) == n[i]
    {
      assert !('A' <= n[i] <= 'Z');
    }
  }

  /** Every spelling of a command name, in any mix of letter case, yields that command. */
  lemma ParseAcceptsAnyCase(c: ServiceCommand, s: string)
    requires EqualIgnoringCase(s, Name(c))
    ensures Parse(s) == Success(c)
  {
    ParseIgnoresCase(s, Name(c));
    NameIsLowerCase(c);
  }

  lemma ParseExamples()
    ensures Parse("STATUS") == Success(Status)
    ensures Parse("ReConnect") == Success(Reconnect)
    ensures Parse("Stop") == Failure(InvalidCommand("stop"))
  {
    ParseAcceptsAnyCase(Status, "STATUS");
    ParseAcceptsAnyCase(Reconnect, "ReConnect");
    assert ToLower("Stop") == "stop";
  }
}
