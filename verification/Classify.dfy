/** Which syslog lines count as connectivity evidence, and exactly which they are. */
module Classification {
  import opened Wrappers
  import opened IncidentState
  import opened Messages
  import opened Observing

  predicate IsSpace(c: char) {
    || c == '\t' || c == '\n' || c == '\U{0B}' || c == '\U{0C}' || c == '\r' || c == ' '
    || c == '\U{85}' || c == '\U{A0}' || c == '\U{1680}' || ('\U{2000}' <= c <= '\U{200A}')
    || c == '\U{2028}' || c == '\U{2029}' || c == '\U{202F}' || c == '\U{205F}' || c == '\U{3000}'
  }

  function TrimLeft(s: string): string {
    if s != [] && IsSpace(s[0]) then TrimLeft(s[1..]) else s
  }

  function TrimRight(s: string): string {
    if s != [] && IsSpace(s[|s| - 1]) then TrimRight(s[..|s| - 1]) else s
  }

  /** strings.TrimSpace. */
  function Trim(s: string): string { TrimRight(TrimLeft(s)) }

  /** strings.Index: where the pattern first occurs. */
  function IndexOf(s: string, pattern: string): (at: Option<nat>)
    ensures at.Some? ==> at.value + |pattern| <= |s| && s[at.value..at.value + |pattern|] == pattern
  {
    if pattern <= s then Some(0)
    else if s == [] then None
    else match IndexOf(s[1..], pattern)
      case Some(n) => Some(n + 1)
      case None => None
  }

  const REPEATER := "(repeater.lua:"
  const CLOSE := ") "
  const STARLINK := "switch to STARLINK"

  predicate Digits(s: string) {
    s != [] && forall n :: 0 <= n < |s| ==> '0' <= s[n] <= '9'
  }

  predicate EndsWith(s: string, suffix: string) {
    |suffix| <= |s| && s[|s| - |suffix|..] == suffix
  }

  predicate ValidRepeaterPrefix(value: string) {
    && REPEATER <= value && EndsWith(value, CLOSE)
    && |REPEATER| + |CLOSE| <= |value|
    && Digits(value[|REPEATER|..|value| - |CLOSE|])
  }

  function StatusPrefix(candidate: string): string { "interface " + candidate + " status " }

  /** What a repeater line says about one interface: whether it is online, if it says anything. */
  function RepeaterStatus(status: string, candidate: string): Option<bool> {
    match IndexOf(status, StatusPrefix(candidate))
    case None => None
    case Some(index) =>
      if !ValidRepeaterPrefix(status[..index]) then None
      else
        var state := Trim(status[index + |StatusPrefix(candidate)|..]);
        if state == "offline" then Some(false) else if state == "online" then Some(true) else None
  }

  predicate SwitchesToStarlink(status: string) {
    match IndexOf(status, STARLINK)
    case None => false
    case Some(index) => ValidRepeaterPrefix(status[..index]) && Trim(status[index..]) == STARLINK
  }

  /** What a netifd line says about one interface. */
  function NetifdStatus(status: string, candidate: string, primary: bool): Option<bool> {
    if status == "Interface '" + candidate + "' is now down" then Some(false)
    else if primary && status == "Interface '" + candidate + "' has lost the connection" then Some(false)
    else if status == "Interface '" + candidate + "' is now up" then Some(true)
    else None
  }

  /** What a line says about one interface, by the kind of process that wrote it. */
  function Says(message: Message, wan: string, candidate: string): Option<bool> {
    var status := Trim(message.message);
    if message.tag == "netifd" && candidate in {wan, "wwan", "tethering"} then
      NetifdStatus(status, candidate, candidate == wan)
    else if message.tag == "gl-repeater" && candidate in {wan, "wwan"} then RepeaterStatus(status, candidate)
    else None
  }

  function Classify(message: Message, wan: string): (e: Option<Evidence>)
    ensures e.Some? <==>
      && Trim(message.hostname) != "" && message.receivedAt != ZERO_TIME
      && ((message.tag == "gl-repeater" && SwitchesToStarlink(Trim(message.message)))
          || Says(message, wan, wan).Some? || Says(message, wan, "wwan").Some? || Says(message, wan, "tethering").Some?)
    ensures e.Some? ==>
      && e.value.at == message.receivedAt && e.value.messageId == message.id
      && e.value.hostname == Trim(message.hostname)
      && (message.tag == "netifd" || message.tag == "gl-repeater") && e.value.iface in {wan, "wwan", "tethering"}
      && (e.value.reachability <==> message.tag == "gl-repeater" && !e.value.observeOnly)
      && (e.value.observeOnly <==> message.tag == "gl-repeater" && SwitchesToStarlink(Trim(message.message)))
      && (e.value.observeOnly ==> e.value.iface == "wwan" && !e.value.online)
      && (!e.value.observeOnly ==> Says(message, wan, e.value.iface) == Some(e.value.online))
      && (!e.value.observeOnly && e.value.iface != wan ==> Says(message, wan, wan).None?)
  {
    var hostname := Trim(message.hostname);
    var status := Trim(message.message);
    var base := Evidence(hostname, wan, false, message.receivedAt, message.id, false, false);
    if hostname == "" || message.receivedAt == ZERO_TIME then None
    else if message.tag == "netifd" then
      if NetifdStatus(status, wan, true).Some? then Some(base.(online := NetifdStatus(status, wan, true).value))
      else if NetifdStatus(status, "wwan", wan == "wwan").Some? then
        Some(base.(iface := "wwan", online := NetifdStatus(status, "wwan", wan == "wwan").value))
      else if NetifdStatus(status, "tethering", wan == "tethering").Some? then
        Some(base.(iface := "tethering", online := NetifdStatus(status, "tethering", wan == "tethering").value))
      else None
    else if message.tag != "gl-repeater" then None
    else if SwitchesToStarlink(status) then Some(base.(iface := "wwan", observeOnly := true))
    else if RepeaterStatus(status, wan).Some? then
      Some(base.(online := RepeaterStatus(status, wan).value, reachability := true))
    else if RepeaterStatus(status, "wwan").Some? then
      Some(base.(iface := "wwan", online := RepeaterStatus(status, "wwan").value, reachability := true))
    else None
  }

  // ---------- exactly which lines ----------

  predicate Blank(s: string) { forall n :: 0 <= n < |s| ==> IsSpace(s[n]) }

  lemma {:induction false} TrimLeftPads(s: string) returns (pad: string)
    ensures Blank(pad) && s == pad + TrimLeft(s)
    decreases |s|
  {
    pad := [];
    if s != [] && IsSpace(s[0]) {
      pad := TrimLeftPads(s[1..]);
      assert s == [s[0]] + s[1..];
      pad := [s[0]] + pad;
    }
  }

  lemma {:induction false} TrimRightPads(s: string) returns (pad: string)
    ensures Blank(pad) && s == TrimRight(s) + pad
    decreases |s|
  {
    pad := [];
    if s != [] && IsSpace(s[|s| - 1]) {
      pad := TrimRightPads(s[..|s| - 1]);
      assert s == s[..|s| - 1] + [s[|s| - 1]];
      pad := pad + [s[|s| - 1]];
    }
  }

  lemma {:induction false} TrimLeftOf(pad: string, word: string)
    requires Blank(pad) && (word != [] ==> !IsSpace(word[0]))
    ensures TrimLeft(pad + word) == word
    decreases |pad|
  {
    if pad == [] {
      assert pad + word == word;
    } else {
      assert (pad + word)[1..] == pad[1..] + word;
      TrimLeftOf(pad[1..], word);
    }
  }

  lemma {:induction false} TrimRightOf(word: string, pad: string)
    requires Blank(pad) && (word != [] ==> !IsSpace(word[|word| - 1]))
    ensures TrimRight(word + pad) == word
    decreases |pad|
  {
    if pad == [] {
      assert word + pad == word;
    } else {
      assert (word + pad)[..|word + pad| - 1] == word + pad[..|pad| - 1];
      TrimRightOf(word, pad[..|pad| - 1]);
    }
  }

  /** Trimming gives a word exactly when the word is there, padded with blanks. */
  lemma TrimExact(s: string, word: string)
    requires word != [] && !IsSpace(word[0]) && !IsSpace(word[|word| - 1])
    ensures Trim(s) == word <==> exists left, right :: Blank(left) && Blank(right) && s == left + word + right
  {
    if Trim(s) == word {
      var left := TrimLeftPads(s);
      var right := TrimRightPads(TrimLeft(s));
      assert s == left + word + right;
    }
    if left, right :| Blank(left) && Blank(right) && s == left + word + right {
      assert s == left + (word + right);
      TrimLeftOf(left, word + right);
      TrimRightOf(word, right);
    }
  }

  /** The first occurrence is where the pattern starts with a character found nowhere before. */
  lemma {:induction false} FirstOccurrence(before: string, pattern: string, after: string)
    requires pattern != [] && forall n :: 0 <= n < |before| ==> before[n] != pattern[0]
    ensures IndexOf(before + pattern + after, pattern) == Some(|before|)
    decreases |before|
  {
    var s := before + pattern + after;
    if before == [] {
      assert s[..|pattern|] == pattern;
    } else {
      assert s[0] == before[0];
      assert s[1..] == before[1..] + pattern + after;
      FirstOccurrence(before[1..], pattern, after);
    }
  }

  /** The prefix is the repeater's source position: a line number, and nothing else. */
  lemma RepeaterPrefixExact(value: string)
    ensures ValidRepeaterPrefix(value) <==> exists line :: Digits(line) && value == REPEATER + line + CLOSE
  {
    if ValidRepeaterPrefix(value) {
      var line := value[|REPEATER|..|value| - |CLOSE|];
      assert value == value[..|REPEATER|] + line + value[|value| - |CLOSE|..];
    }
    if line :| Digits(line) && value == REPEATER + line + CLOSE {
      assert value[|REPEATER|..|value| - |CLOSE|] == line;
      assert value[|value| - |CLOSE|..] == CLOSE;
    }
  }

  function Word(online: bool): string { if online then "online" else "offline" }

  /** The line a repeater writes about an interface. */
  function RepeaterLine(line: string, candidate: string, left: string, online: bool, right: string): string {
    REPEATER + line + CLOSE + StatusPrefix(candidate) + left + Word(online) + right
  }

  lemma NoInterfaceBefore(line: string)
    requires Digits(line)
    ensures forall n :: 0 <= n < |REPEATER + line + CLOSE| ==>
      (REPEATER + line + CLOSE)[n] != 'i' && (REPEATER + line + CLOSE)[n] != 's'
  {
    assert forall n :: 0 <= n < |REPEATER| ==> REPEATER[n] != 'i' && REPEATER[n] != 's';
    assert forall n :: 0 <= n < |CLOSE| ==> CLOSE[n] != 'i' && CLOSE[n] != 's';
  }

  lemma RepeaterLineRead(line: string, candidate: string, left: string, online: bool, right: string)
    requires Digits(line) && Blank(left) && Blank(right)
    ensures RepeaterStatus(RepeaterLine(line, candidate, left, online, right), candidate) == Some(online)
  {
    var before, prefix, rest := REPEATER + line + CLOSE, StatusPrefix(candidate), left + Word(online) + right;
    var status := RepeaterLine(line, candidate, left, online, right);
    assert status == before + prefix + rest;
    NoInterfaceBefore(line);
    assert prefix[0] == 'i';
    FirstOccurrence(before, prefix, rest);
    RepeaterPrefixExact(before);
    TrimExact(rest, Word(online));
    StatusReads(status, candidate, before, rest);
  }

  lemma StatusReads(status: string, candidate: string, before: string, rest: string)
    requires status == before + StatusPrefix(candidate) + rest
    requires IndexOf(status, StatusPrefix(candidate)) == Some(|before|)
    requires ValidRepeaterPrefix(before)
    ensures RepeaterStatus(status, candidate) ==
      if Trim(rest) == "online" then Some(true) else if Trim(rest) == "offline" then Some(false) else None
  {
    var prefix := StatusPrefix(candidate);
    assert status[..|before|] == before && status[|before| + |prefix|..] == rest;
  }

  lemma Rejoin(a: string, b: string, c: string, d: string, e: string)
    ensures a + b + (c + (d + e)) == a + b + c + d + e
  {
  }

  lemma RepeaterStatusShape(status: string, candidate: string, online: bool)
    returns (line: string, left: string, right: string)
    requires RepeaterStatus(status, candidate) == Some(online)
    ensures Digits(line) && Blank(left) && Blank(right) && status == RepeaterLine(line, candidate, left, online, right)
  {
    var prefix := StatusPrefix(candidate);
    var index := IndexOf(status, prefix).value;
    RepeaterPrefixExact(status[..index]);
    line :| Digits(line) && status[..index] == REPEATER + line + CLOSE;
    var rest := status[index + |prefix|..];
    assert status == status[..index] + prefix + rest;
    left := TrimLeftPads(rest);
    right := TrimRightPads(TrimLeft(rest));
    Rejoin(REPEATER + line + CLOSE, prefix, left, Word(online), right);
  }

  /** The repeater's own form of a status line. */
  predicate RepeaterForm(status: string, candidate: string, online: bool, line: string, left: string, right: string) {
    Digits(line) && Blank(left) && Blank(right) && status == RepeaterLine(line, candidate, left, online, right)
  }

  /** Exactly the repeater's own status lines are read, with their exact meaning. */
  lemma RepeaterStatusExact(status: string, candidate: string, online: bool)
    ensures RepeaterStatus(status, candidate) == Some(online) <==>
      exists line, left, right :: RepeaterForm(status, candidate, online, line, left, right)
  {
    if RepeaterStatus(status, candidate) == Some(online) {
      var line, left, right := RepeaterStatusShape(status, candidate, online);
      assert RepeaterForm(status, candidate, online, line, left, right);
    }
    if line, left, right :| RepeaterForm(status, candidate, online, line, left, right) {
      RepeaterLineRead(line, candidate, left, online, right);
    }
  }

  // ---------- exactly which messages, on their own text ----------

  /** The characters taken for white space, by their code points. */
  lemma SpacesExact(c: char)
    ensures IsSpace(c) <==>
      var code := c as int;
      || 9 <= code <= 13 || code == 32 || code == 0x85 || code == 0xA0 || code == 0x1680
      || 0x2000 <= code <= 0x200A || 0x2028 <= code <= 0x2029 || code == 0x202F || code == 0x205F || code == 0x3000
  {
  }

  /** A name is empty once trimmed exactly when it is blank. */
  lemma TrimEmptyExact(s: string)
    ensures Trim(s) == "" <==> Blank(s)
  {
    var left := TrimLeftPads(s);
    var right := TrimRightPads(TrimLeft(s));
    if Trim(s) == "" {
      assert s == left + right;
    }
    if Blank(s) {
      assert s + [] == s;
      TrimLeftOf(s, []);
    }
  }

  /** The message has a host and a time. */
  predicate Dated(message: Message) {
    !Blank(message.hostname) && message.receivedAt != ZERO_TIME
  }

  /** The message is taken for evidence about the interface, online or not, to be acted on. */
  predicate SaysThat(message: Message, wan: string, iface: string, online: bool) {
    var e := Classify(message, wan);
    e.Some? && !e.value.observeOnly && e.value.iface == iface && e.value.online == online
  }

  /** Different endings make different lines. */
  lemma LinesDiffer(a: string, b: string, x: string, y: string)
    requires |x| > 1 && |y| > 1 && (x[|x| - 1] != y[|y| - 1] || x[|x| - 2] != y[|y| - 2])
    ensures "Interface '" + a + x != "Interface '" + b + y
  {
    var s, t := "Interface '" + a + x, "Interface '" + b + y;
    assert s[|s| - 1] == x[|x| - 1] && t[|t| - 1] == y[|y| - 1];
    assert s[|s| - 2] == x[|x| - 2] && t[|t| - 2] == y[|y| - 2];
  }

  lemma SameNames(a: string, b: string, x: string)
    ensures "Interface '" + a + x == "Interface '" + b + x <==> a == b
  {
    var s, t := "Interface '" + a + x, "Interface '" + b + x;
    if s == t {
      assert s[11..11 + |a|] == a && t[11..11 + |b|] == b;
    }
  }

  /** No line of netifd says two things, or the same thing of two interfaces. */
  lemma NetifdLinesApart(a: string, b: string)
    ensures "Interface '" + a + "' is now down" != "Interface '" + b + "' is now up"
    ensures "Interface '" + a + "' has lost the connection" != "Interface '" + b + "' is now up"
    ensures "Interface '" + a + "' is now down" != "Interface '" + b + "' has lost the connection"
    ensures "Interface '" + a + "' is now down" == "Interface '" + b + "' is now down" <==> a == b
    ensures "Interface '" + a + "' is now up" == "Interface '" + b + "' is now up" <==> a == b
    ensures "Interface '" + a + "' has lost the connection" == "Interface '" + b + "' has lost the connection" <==>
      a == b
  {
    LinesDiffer(a, b, "' is now down", "' is now up");
    LinesDiffer(a, b, "' has lost the connection", "' is now up");
    LinesDiffer(a, b, "' is now down", "' has lost the connection");
    SameNames(a, b, "' is now down");
    SameNames(a, b, "' is now up");
    SameNames(a, b, "' has lost the connection");
  }

  /** What a message of netifd is evidence of, read off its text: an interface is offline exactly when the line says
      that it is down, or of the primary that it lost the connection, and online exactly when it says that it is up. */
  lemma NetifdExact(message: Message, wan: string, candidate: string)
    requires message.tag == "netifd"
    ensures SaysThat(message, wan, candidate, false) <==>
      && Dated(message) && candidate in {wan, "wwan", "tethering"}
      && (|| Trim(message.message) == "Interface '" + candidate + "' is now down"
          || (candidate == wan && Trim(message.message) == "Interface '" + candidate + "' has lost the connection"))
    ensures SaysThat(message, wan, candidate, true) <==>
      && Dated(message) && candidate in {wan, "wwan", "tethering"}
      && Trim(message.message) == "Interface '" + candidate + "' is now up"
    ensures Classify(message, wan).Some? ==>
      !Classify(message, wan).value.observeOnly && !Classify(message, wan).value.reachability
  {
    TrimEmptyExact(message.hostname);
    NetifdLinesApart(wan, candidate);
    NetifdLinesApart("wwan", candidate);
    NetifdLinesApart("tethering", candidate);
    NetifdLinesApart(candidate, wan);
    NetifdLinesApart(candidate, "wwan");
    NetifdLinesApart(candidate, "tethering");
  }

  /** A line of the repeater's program: where it was written, by a line number, and what it says. */
  predicate FromRepeater(text: string, number: string, said: string) {
    && number != "" && (forall n :: 0 <= n < |number| ==> number[n] in "0123456789")
    && text == "(repeater.lua:" + number + ") " + said
  }

  /** The repeater says that the interface is online, or that it is offline, blanks aside. */
  predicate RepeaterTells(text: string, iface: string, online: bool, number: string, blanks: string) {
    && Blank(blanks)
    && FromRepeater(text, number, "interface " + iface + " status " + blanks + if online then "online" else "offline")
  }

  ghost predicate Tells(text: string, iface: string, online: bool) {
    exists number, blanks :: RepeaterTells(text, iface, online, number, blanks)
  }

  lemma DigitsExact(number: string)
    ensures Digits(number) <==> number != "" && forall n :: 0 <= n < |number| ==> number[n] in "0123456789"
  {
    forall n | 0 <= n < |number| ensures '0' <= number[n] <= '9' <==> number[n] in "0123456789" {
      DigitExact(number[n]);
    }
  }

  lemma DigitExact(c: char)
    ensures '0' <= c <= '9' <==> c in "0123456789"
  {
    var digits := "0123456789";
    if '0' <= c <= '9' {
      assert digits[c as int - '0' as int] == c;
    }
  }

  /** Trimmed text does not end in a blank. */
  lemma {:induction false} TrimmedEnd(s: string)
    ensures TrimRight(s) != [] ==> !IsSpace(TrimRight(s)[|TrimRight(s)| - 1])
    decreases |s|
  {
    if s != [] && IsSpace(s[|s| - 1]) { TrimmedEnd(s[..|s| - 1]); }
  }

  lemma FormTells(text: string, iface: string, online: bool, number: string, left: string, right: string)
    requires RepeaterForm(text, iface, online, number, left, right)
    requires !IsSpace(text[|text| - 1])
    ensures RepeaterTells(text, iface, online, number, left)
  {
    assert right == [];
    DigitsExact(number);
    var said := "interface " + iface + " status " + left + if online then "online" else "offline";
    assert text == "(repeater.lua:" + number + ") " + said;
  }

  lemma TellsForm(text: string, iface: string, online: bool, number: string, blanks: string)
    requires RepeaterTells(text, iface, online, number, blanks)
    ensures RepeaterForm(text, iface, online, number, blanks, "")
  {
    DigitsExact(number);
    assert text == RepeaterLine(number, iface, blanks, online, "");
  }

  lemma TellsExact(text: string, iface: string, online: bool)
    requires text != "" && !IsSpace(text[|text| - 1])
    ensures RepeaterStatus(text, iface) == Some(online) <==> Tells(text, iface, online)
  {
    RepeaterStatusExact(text, iface, online);
    if number, left, right :| RepeaterForm(text, iface, online, number, left, right) {
      FormTells(text, iface, online, number, left, right);
    }
    if number, blanks :| RepeaterTells(text, iface, online, number, blanks) {
      TellsForm(text, iface, online, number, blanks);
    }
  }

  /** Text that neither starts nor ends in a blank is left alone. */
  lemma TrimKeeps(text: string)
    requires text != "" && !IsSpace(text[0]) && !IsSpace(text[|text| - 1])
    ensures Trim(text) == text
  {
  }

  lemma SwitchShape(text: string) returns (number: string)
    requires SwitchesToStarlink(text) && !IsSpace(text[|text| - 1])
    ensures FromRepeater(text, number, "switch to STARLINK")
  {
    var index := IndexOf(text, STARLINK).value;
    var before, rest := text[..index], text[index..];
    RepeaterPrefixExact(before);
    number :| Digits(number) && before == REPEATER + number + CLOSE;
    DigitsExact(number);
    assert rest[0] == text[index..index + |STARLINK|][0] == 's';
    assert rest[|rest| - 1] == text[|text| - 1];
    TrimKeeps(rest);
    assert text == before + rest;
  }

  /** A word whose first character is not found before it is found where it starts. */
  lemma LastWord(before: string, word: string)
    requires word != "" && forall n :: 0 <= n < |before| ==> before[n] != word[0]
    ensures IndexOf(before + word, word) == Some(|before|)
    ensures (before + word)[..|before|] == before && (before + word)[|before|..] == word
  {
    assert before + word + "" == before + word;
    FirstOccurrence(before, word, "");
  }

  lemma SwitchRead(text: string, number: string)
    requires FromRepeater(text, number, "switch to STARLINK")
    ensures SwitchesToStarlink(text)
  {
    DigitsExact(number);
    NoInterfaceBefore(number);
    var before := REPEATER + number + CLOSE;
    assert text == before + STARLINK;
    LastWord(before, STARLINK);
    RepeaterPrefixExact(before);
    TrimKeeps(STARLINK);
  }

  /** The repeater's switch to the backup link is recognized exactly by its own line. */
  lemma SwitchExact(text: string)
    requires text != "" && !IsSpace(text[|text| - 1])
    ensures SwitchesToStarlink(text) <==> exists number :: FromRepeater(text, number, "switch to STARLINK")
  {
    if SwitchesToStarlink(text) {
      var number := SwitchShape(text);
    }
    if number :| FromRepeater(text, number, "switch to STARLINK") {
      SwitchRead(text, number);
    }
  }

  /** The message is taken for evidence that is only to be noted. */
  predicate OnlyNoted(message: Message, wan: string) {
    Classify(message, wan).Some? && Classify(message, wan).value.observeOnly
  }

  /** What a message of the repeater is evidence of, read off its text. Its switch to the backup link is only noted, as
      offline evidence of the backup interface; a status line is reachability evidence about the interface it names,
      the primary first. */
  lemma RepeaterExact(message: Message, wan: string, candidate: string, online: bool)
    requires message.tag == "gl-repeater"
    ensures OnlyNoted(message, wan) <==>
      Dated(message) && exists number :: FromRepeater(Trim(message.message), number, "switch to STARLINK")
    ensures OnlyNoted(message, wan) ==>
      var e := Classify(message, wan).value;
      e.iface == "wwan" && !e.online && !e.reachability
    ensures SaysThat(message, wan, candidate, online) <==>
      && Dated(message) && candidate in {wan, "wwan"} && Tells(Trim(message.message), candidate, online)
      && (candidate == wan || !(Tells(Trim(message.message), wan, true) || Tells(Trim(message.message), wan, false)))
    ensures SaysThat(message, wan, candidate, online) ==> Classify(message, wan).value.reachability
  {
    var text := Trim(message.message);
    TrimEmptyExact(message.hostname);
    if text == "" {
      assert forall number, said :: !FromRepeater(text, number, said);
    } else {
      TrimmedEnd(TrimLeft(message.message));
      SwitchExact(text);
      TellsExact(text, candidate, online);
      TellsExact(text, wan, true);
      TellsExact(text, wan, false);
      if Tells(text, candidate, online) && SwitchesToStarlink(text) {
        TellsNoSwitch(text, candidate, online);
      }
    }
  }

  lemma LineEnd(text: string, number: string, said: string)
    requires FromRepeater(text, number, said) && said != ""
    ensures text != "" && text[|text| - 1] == said[|said| - 1]
  {
  }

  /** A status line is no switch. */
  lemma TellsNoSwitch(text: string, iface: string, online: bool)
    requires Tells(text, iface, online)
    ensures forall number :: !FromRepeater(text, number, "switch to STARLINK")
  {
    var number, blanks :| RepeaterTells(text, iface, online, number, blanks);
    var word := if online then "online" else "offline";
    LineEnd(text, number, "interface " + iface + " status " + blanks + word);
    forall other ensures !FromRepeater(text, other, "switch to STARLINK") {
      if FromRepeater(text, other, "switch to STARLINK") { LineEnd(text, other, "switch to STARLINK"); }
    }
  }
}
