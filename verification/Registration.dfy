/** Logging in: what the client writes and what the server reads out of it
    (src/client/Client.cpp:74-99, src/server/Server.cpp:61-121). */
module Registration {
  import opened Strings
  import opened Sockio
  import opened Irc

  const USER_DELIM := " * * :"

  datatype Handshake = Handshake(nick: string, whoami: string, realName: string, password: string)

  /** msg.substr(5): `None` is the std::out_of_range it throws for a shorter message. */
  function After5(msg: string): Option<string> {
    if |msg| >= 5 then Some(msg[5..]) else None
  }

  /** register_session's reading of the three handshake messages. */
  function ParseHandshake(nickMsg: string, userMsg: string, passMsg: string): Option<Handshake> {
    var parts := Split(userMsg, USER_DELIM);
    var nick :- After5(nickMsg);
    var password :- After5(passMsg);
    var whoami :- After5(parts[0]);
    Some(Handshake(nick, whoami, parts[|parts| - 1], password))
  }

  /** What is read out of any three messages: nick and password are what follows the command; of the USER message, whoami ends
      at the first delimiter and the real name begins after the last. It fails exactly when a command is cut short. */
  lemma HandshakeFields(nickMsg: string, userMsg: string, passMsg: string)
    ensures match ParseHandshake(nickMsg, userMsg, passMsg)
            case None =>
              |nickMsg| < 5 || |passMsg| < 5 || |userMsg| < 5
              || exists i | 0 <= i < 5 :: OccursAt(userMsg, USER_DELIM, i)
            case Some(h) =>
              && |nickMsg| >= 5 && h.nick == nickMsg[5..] && |passMsg| >= 5 && h.password == passMsg[5..]
              && |userMsg| >= 5 && !Contains(userMsg[..5] + h.whoami, USER_DELIM) && !Contains(h.realName, USER_DELIM)
              && (Contains(userMsg, USER_DELIM) ==>
                    userMsg[..5] + h.whoami + USER_DELIM <= userMsg && EndsWith(userMsg, USER_DELIM + h.realName))
              && (!Contains(userMsg, USER_DELIM) ==> h.whoami == userMsg[5..] && h.realName == userMsg)
  {
    hide Split, Contains, Find, EndsWith;
    var parts := Split(userMsg, USER_DELIM);
    PiecesAreDelimiterFree(userMsg, USER_DELIM);
    FindSome(userMsg, USER_DELIM);
    match Find(userMsg, USER_DELIM, 0)
    case None =>
      SplitNone(userMsg, USER_DELIM);
      assert |userMsg| >= 5 ==> userMsg[..5] + userMsg[5..] == userMsg;
    case Some(i) =>
      SplitSome(userMsg, USER_DELIM, i);
      LastPieceEnds(userMsg, USER_DELIM);
      assert userMsg[..i] + USER_DELIM <= userMsg;
      assert OccursAt(userMsg, USER_DELIM, i);
      assert i >= 5 ==> userMsg[..5] + userMsg[..i][5..] == userMsg[..i];
  }

  predicate EndsWith(s: string, d: string) {
    |s| >= |d| && s[|s| - |d|..] == d
  }

  lemma {:induction false} LastPieceEnds(s: string, d: string)
    requires d != "" && Contains(s, d)
    ensures var parts := Split(s, d); EndsWith(s, d + parts[|parts| - 1])
    decreases |s|
  {
    hide Split, Find, Contains;
    FindSome(s, d);
    var i := Find(s, d, 0).value;
    var rest := s[i + |d|..];
    SplitSome(s, d, i);
    assert s == s[..i] + (d + rest);
    FindSome(rest, d);
    match Find(rest, d, 0)
    case None =>
      SplitNone(rest, d);
    case Some(_) =>
      LastPieceEnds(rest, d);
  }

  /** The reads of register_session do not block: a NICK that is too short throws before anything else is read. */
  predicate Readable(inc: seq<string>) {
    inc != [] && (After5(inc[0]).Some? ==> |inc| >= 3)
  }

  /** What register_session makes of the messages that reading will give; `None` is its exception. */
  function FirstHandshake(inc: seq<string>): Option<Handshake>
    requires Readable(inc)
  {
    if After5(inc[0]).None? then None else ParseHandshake(inc[0], inc[1], inc[2])
  }

  // ---- The client's side ----

  function NickLine(h: Handshake): string { "NICK " + h.nick }
  function UserLine(h: Handshake): string { "USER " + h.whoami + USER_DELIM + h.realName }
  function PassLine(h: Handshake): string { "PASS " + h.password }

  /** Everything pass_user_info_to_server writes; the last message ends with a doubled CRLF. */
  function HandshakeBytes(h: Handshake): string {
    NickLine(h) + CRLF + (UserLine(h) + CRLF) + (PassLine(h) + CRLF + CRLF)
  }

  /** What getline and the operating system hand to the client. */
  predicate LineFree(s: string) {
    '\n' !in s
  }

  lemma LineFreeHasNoCrlf(s: string)
    requires LineFree(s)
    ensures !Contains(s, CRLF)
  {
    forall i | 0 <= i <= |s| - 2
      ensures !OccursAt(s, CRLF, i)
    {
      assert s[i..i + 2][1] == s[i + 1];
      assert CRLF[1] == '\n';
    }
  }

  lemma HandshakeMessages(h: Handshake)
    requires LineFree(h.nick) && LineFree(h.whoami) && LineFree(h.realName) && LineFree(h.password)
    ensures Messages(HandshakeBytes(h)) == [NickLine(h), UserLine(h), PassLine(h)]
  {
    hide Messages;
    LineFreeHasNoCrlf(NickLine(h));
    LineFreeHasNoCrlf(UserLine(h));
    LineFreeHasNoCrlf(PassLine(h));
    var n, u, p := NickLine(h), UserLine(h), PassLine(h);
    assert HandshakeBytes(h) == n + CRLF + (u + CRLF + (p + CRLF + ("" + CRLF + "")));
    MessagesAtCrlf(n, u + CRLF + (p + CRLF + ("" + CRLF + "")));
    MessagesAtCrlf(u, p + CRLF + ("" + CRLF + ""));
    MessagesAtCrlf(p, "" + CRLF + "");
    MessagesAtCrlf("", "");
    NoMessages();
    MessagesOfOne(n);
    MessagesOfOne(u);
    MessagesOfOne(p);
  }

  lemma DelimBorderFree()
    ensures BorderFree(USER_DELIM)
  {
    var d := USER_DELIM;
    assert d[5] == ':';
    forall k | 0 < k < |d|
      ensures d[..k] != d[|d| - k..]
    {
      assert d[|d| - k..][k - 1] == ':';
      assert d[..k][k - 1] == d[k - 1];
      assert d[0] != ':' && d[1] != ':' && d[2] != ':' && d[3] != ':' && d[4] != ':';
    }
  }

  lemma UserLinePieces(h: Handshake)
    ensures var left, right := Split("USER " + h.whoami, USER_DELIM), Split(h.realName, USER_DELIM);
            var parts := Split(UserLine(h), USER_DELIM);
            parts[0] == left[0] && parts[|parts| - 1] == right[|right| - 1]
  {
    hide Split;
    DelimBorderFree();
    SplitAtDelimiter("USER " + h.whoami, USER_DELIM, h.realName);
  }

  /** The server recovers what the client sent exactly when neither `"USER " + whoami` nor the real name
      contains the delimiter; the nick and the password are always recovered. */
  lemma RegistrationRoundTrip(h: Handshake)
    ensures ParseHandshake(NickLine(h), UserLine(h), PassLine(h)) == Some(h)
            <==> !Contains("USER " + h.whoami, USER_DELIM) && !Contains(h.realName, USER_DELIM)
    ensures match ParseHandshake(NickLine(h), UserLine(h), PassLine(h))
            case None => true
            case Some(g) => g.nick == h.nick && g.password == h.password
  {
    hide Split, Contains;
    var user := "USER " + h.whoami;
    UserLinePieces(h);
    LastPieceIsWhole(user, USER_DELIM);
    LastPieceIsWhole(h.realName, USER_DELIM);
    assert After5(NickLine(h)) == Some(h.nick);
    assert After5(PassLine(h)) == Some(h.password);
    assert After5(user) == Some(h.whoami);
  }

  // ---- The verdict ----

  /** The server's answer, without its CRLF. */
  function VerdictLine(host: string, nick: string, whoami: string, addr: string, ok: bool): string {
    var code := if ok then RPL_WELCOME else ERR_PASSWDMISMATCH;
    var text := if ok then ":Welcome to the Internet Relay Network" else ":Password incorrect";
    host + " " + code + " " + nick + " " + text + (" " + nick + "!" + whoami + "@" + addr)
  }

  /** The client's verdict; `None` when reading the fourth word throws. */
  function ClientVerdict(reply: string): Option<bool> {
    var parts := Split(reply, " ");
    if |parts| < 4 || parts[3] == "" then None else Some(parts[1] == RPL_WELCOME)
  }

  lemma NoSpace(s: string)
    requires ' ' !in s
    ensures !Contains(s, " ") && Split(s, " ") == [s]
  {
    AlienText(s, " ");
    FindNone(s, " ", 0);
  }

  lemma VerdictWords(host: string, code: string, nick: string, word: string, rest: string)
    requires ' ' !in host && ' ' !in code && ' ' !in word
    ensures Split(host + " " + (code + " " + (nick + " " + (word + " " + rest))), " ")
         == [host, code] + Split(nick, " ") + [word] + Split(rest, " ")
  {
    hide Split;
    OneCharBorderFree(" ");
    SplitAtDelimiter(host, " ", code + " " + (nick + " " + (word + " " + rest)));
    SplitAtDelimiter(code, " ", nick + " " + (word + " " + rest));
    SplitAtDelimiter(nick, " ", word + " " + rest);
    SplitAtDelimiter(word, " ", rest);
    NoSpace(host);
    NoSpace(code);
    NoSpace(word);
  }

  function VerdictWord(ok: bool): string {
    if ok then ":Welcome" else ":Password"
  }

  function VerdictRest(nick: string, whoami: string, addr: string, ok: bool): string {
    (if ok then "to the Internet Relay Network" else "incorrect") + (" " + nick + "!" + whoami + "@" + addr)
  }

  lemma Regroup(a: string, b: string, c: string, d: string)
    ensures a + b + c + d == a + (b + (c + d))
    ensures a + (b + c + d) == a + b + c + d
  {
  }

  lemma WelcomeWords()
    ensures ":Welcome to the Internet Relay Network" == ":Welcome" + " " + "to the Internet Relay Network"
  {
    assert "to the Internet Relay Network" == "to the Internet" + " " + "Relay Network";
    assert ":Welcome to the Internet" == ":Welcome" + " " + "to the Internet";
    assert ":Welcome to the Internet Relay Network" == ":Welcome to the Internet" + " " + "Relay Network";
  }

  lemma RefusalWords()
    ensures ":Password incorrect" == ":Password" + " " + "incorrect"
  {
  }

  lemma VerdictLineShape(host: string, nick: string, whoami: string, addr: string, ok: bool)
    ensures var code := if ok then RPL_WELCOME else ERR_PASSWDMISMATCH;
            VerdictLine(host, nick, whoami, addr, ok)
            == host + " " + (code + " " + (nick + " " + (VerdictWord(ok) + " " + VerdictRest(nick, whoami, addr, ok))))
  {
    var code := if ok then RPL_WELCOME else ERR_PASSWDMISMATCH;
    var text := if ok then ":Welcome to the Internet Relay Network" else ":Password incorrect";
    var tail := if ok then "to the Internet Relay Network" else "incorrect";
    var who := " " + nick + "!" + whoami + "@" + addr;
    WelcomeWords();
    RefusalWords();
    assert text == VerdictWord(ok) + " " + tail;
    WordsRegroup(host, code, nick, VerdictWord(ok), tail, who);
  }

  lemma WordsRegroup(a: string, b: string, c: string, d: string, e: string, f: string)
    ensures a + " " + b + " " + c + " " + (d + " " + e) + f == a + " " + (b + " " + (c + " " + (d + " " + (e + f))))
  {
    var s := " ";
    Regroup(d, s, e, f);
    Regroup(a + s + b + s + c + s, d + s + e, f, "");
    Regroup(a + s + b + s, c, s, d + s + (e + f));
    Regroup(a + s, b, s, c + s + (d + s + (e + f)));
  }

  /** The second word of a nick with spaces is empty: two of its spaces in a row follow the first word. */
  predicate EmptySecondWord(nick: string) {
    var words := Split(nick, " ");
    |words| >= 2 && words[1] == ""
  }

  /** The client's verdict is the server's, unless the nick has an empty second word: then reading throws. */
  lemma VerdictAgrees(host: string, nick: string, whoami: string, addr: string, ok: bool)
    requires ' ' !in host
    ensures var verdict := ClientVerdict(VerdictLine(host, nick, whoami, addr, ok));
            && (verdict == Some(ok) <==> !EmptySecondWord(nick))
            && (verdict.None? <==> EmptySecondWord(nick))
  {
    hide Split, VerdictLine, VerdictRest;
    var code := if ok then RPL_WELCOME else ERR_PASSWDMISMATCH;
    VerdictLineShape(host, nick, whoami, addr, ok);
    VerdictWords(host, code, nick, VerdictWord(ok), VerdictRest(nick, whoami, addr, ok));
    var words := Split(nick, " ");
    var parts := Split(VerdictLine(host, nick, whoami, addr, ok), " ");
    assert parts[1] == code && parts[3] == if |words| >= 2 then words[1] else VerdictWord(ok);
  }
}
