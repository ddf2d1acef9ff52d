/** The message the `Log` command of commands.py prints for a failed command:
    a fixed header, the command's class name, and the text of the exception.
    The printing itself is not modelled; the message is, together with a
    parser that recovers both parts from it. */
module ErrorLog {

  const Header: string := "An error has occurred.\nCmd: "
  const Separator: string := "\nException: "

  function Message(cmdClass: string, exc: string): (m: string)
    ensures |m| == |Header| + |cmdClass| + |Separator| + |exc|
    ensures m[..|Header|] == Header
    ensures m[|Header|..|Header| + |cmdClass|] == cmdClass
    ensures m[|m| - |exc|..] == exc
  {
    Header + cmdClass + Separator + exc
  }

  /** The index of the first newline of `s`, or `|s|` when there is none. */
  function FirstNewline(s: string): (i: nat)
    ensures i <= |s|
    ensures forall j :: 0 <= j < i ==> s[j] != '\n'
    ensures i < |s| ==> s[i] == '\n'
    decreases |s|
  {
    if |s| == 0 || s[0] == '\n' then 0 else 1 + FirstNewline(s[1..])
  }

  /** Splits a logged message back into class name and exception text. */
  function Parse(m: string): (r: Parsed)
    ensures r.Parsed? ==> Message(r.cmdClass, r.exc) == m
  {
    if |m| < |Header| || m[..|Header|] != Header then NoParse
    else
      var rest := m[|Header|..];
      var i := FirstNewline(rest);
      if |rest| - i < |Separator| || rest[i..i + |Separator|] != Separator then NoParse
      else
        Reassemble(m, Header, Separator, i);
        Parsed(rest[..i], rest[i + |Separator|..])
  }

  /** A string with prefix `h` and with `sep` at offset `i` after it is
      put back together from its three parts. */
  lemma Reassemble(m: string, h: string, sep: string, i: nat)
    requires |h| <= |m| && i + |sep| <= |m| - |h|
    requires m[..|h|] == h && m[|h|..][i..i + |sep|] == sep
    ensures m == h + m[|h|..][..i] + sep + m[|h|..][i + |sep|..]
  {
    var rest := m[|h|..];
    assert rest == rest[..i] + rest[i..i + |sep|] + rest[i + |sep|..];
    assert m == m[..|h|] + rest;
  }

  datatype Parsed = NoParse | Parsed(cmdClass: string, exc: string)

  /** A class name never contains a newline, so the message determines both parts. */
  lemma ParseInvertsMessage(cmdClass: string, exc: string)
    requires '\n' !in cmdClass
    ensures Parse(Message(cmdClass, exc)) == Parsed(cmdClass, exc)
  {
    var m := Message(cmdClass, exc);
    assert m[..|Header|] == Header;
    var rest := m[|Header|..];
    assert rest == cmdClass + Separator + exc;
    var i := FirstNewline(rest);
    assert rest[|cmdClass|] == '\n';
    assert i == |cmdClass| by {
      if i < |cmdClass| {
        assert false;
      }
    }
    assert rest[i..i + |Separator|] == Separator;
    assert rest[..i] == cmdClass;
    assert rest[i + |Separator|..] == exc;
  }

  /** The message of the logging test: a mocked ICommand that raised Exception("Error"). */
  lemma LoggedExample()
    ensures Message("ICommand", "Error") == "An error has occurred.\nCmd: ICommand\nException: Error"
  {
  }
}
