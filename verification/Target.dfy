/** Where a Machine's `sshd` is and who to log in as: `user@host[:port]`. */
module Target {
  import opened Common
  import opened Text

  datatype Target = Target(user: string, host: string, port: nat)

  predicate IsWordChar(c: char, underscore: bool) {
    IsDigit(c) || 'a' <= c <= 'z' || 'A' <= c <= 'Z' || c == '-' || c == '.' || (underscore && c == '_')
  }

  /** What may stand as an `ssh` argument: never taken for an option. */
  predicate IsWord(s: string, underscore: bool) {
    s != [] && s[0] != '-' && forall i | 0 <= i < |s| :: IsWordChar(s[i], underscore)
  }

  predicate Valid(t: Target) { IsWord(t.user, true) && IsWord(t.host, false) && 0 < t.port <= 65535 }

  function Parse(s: string): (t: Option<Target>)
    ensures t.Some? ==> Valid(t.value)
  {
    var parts := SplitOnce(s, '@');
    if parts.None? then None else
    var hostPort := SplitOnce(parts.value.1, ':');
    var host := if hostPort.Some? then hostPort.value.0 else parts.value.1;
    var port := if hostPort.Some? then Text.Parse(hostPort.value.1, 65535) else Some(22);
    if port.None? || port.value == 0 || !IsWord(parts.value.0, true) || !IsWord(host, false) then None
    else Some(Target(parts.value.0, host, port.value))
  }

  /** The text says the target: its user and host, and its port unless that is 22. */
  ghost predicate Says(s: string, t: Target) {
    || (s == t.user + "@" + t.host && t.port == 22)
    || exists p :: s == t.user + "@" + (t.host + ":" + p) && Text.Parse(p, 65535) == Some(t.port)
  }

  /** A text is taken for a target exactly when it says it, and `ssh` can be given it. */
  lemma ParseExactly(s: string, t: Target)
    ensures Parse(s) == Some(t) <==> Valid(t) && Says(s, t)
  {
    if Valid(t) && Says(s, t) {
      NotInWord(t.user, true, '@');
      NotInWord(t.host, false, ':');
      if s == t.user + "@" + t.host && t.port == 22 {
        SplitOnceIs(t.user, '@', t.host);
      } else {
        var p :| s == t.user + "@" + (t.host + ":" + p) && Text.Parse(p, 65535) == Some(t.port);
        SplitOnceIs(t.user, '@', t.host + ":" + p);
        SplitOnceIs(t.host, ':', p);
      }
    }
    if Parse(s) == Some(t) {
      var parts := SplitOnce(s, '@').value;
      var hostPort := SplitOnce(parts.1, ':');
      if hostPort.Some? { assert s == t.user + "@" + (t.host + ":" + hostPort.value.1); }
    }
  }

  function Show(t: Target): string {
    t.user + "@" + (t.host + if t.port != 22 then ":" + Print(t.port) else "")
  }

  lemma NotInWord(s: string, underscore: bool, c: char)
    requires IsWord(s, underscore) && !IsWordChar(c, underscore)
    ensures c !in s
  {
  }

  lemma ShowThenParsePort(t: Target)
    requires Valid(t) && t.port != 22
    ensures Parse(Show(t)) == Some(t)
  {
    var rest := t.host + ":" + Print(t.port);
    NotInWord(t.user, true, '@');
    NotInWord(t.host, false, ':');
    assert Show(t) == t.user + "@" + rest by { assert t.host + (":" + Print(t.port)) == rest; }
    SplitOnceIs(t.user, '@', rest);
    SplitOnceIs(t.host, ':', Print(t.port));
    ParseOfPrint(t.port, 65535);
  }

  /** What is shown of a target reads back as it. */
  lemma ShowThenParse(t: Target)
    requires Valid(t)
    ensures Parse(Show(t)) == Some(t)
  {
    if t.port != 22 {
      ShowThenParsePort(t);
    } else {
      NotInWord(t.user, true, '@');
      NotInWord(t.host, false, ':');
      SplitOnceIs(t.user, '@', t.host);
      assert Show(t) == t.user + "@" + t.host;
    }
  }

  /** What is put on record for a target that was given is read back as that target: the same user and host
      and port, however it was written. */
  lemma RecordedTargetKept(s: string)
    ensures Parse(s).Some? ==> Parse(Show(Parse(s).value)) == Parse(s)
  {
    if Parse(s).Some? { ShowThenParse(Parse(s).value); }
  }
}
