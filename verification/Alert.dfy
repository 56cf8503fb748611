/** Alert texts (internal/gatus/alert.go): formatting an alert, preparing a preformatted text, and
    reading the log fields back from a text. */
module Alert {
  import opened Options
  import opened GoStrings

  datatype Alert = Alert(
    state: string,
    endpointName: string,
    endpointGroup: string,
    endpointURL: string,
    description: string,
    errors: string)

  /** Unicode case mapping, rune by rune: `unicode.ToUpper` and the folding of `EqualFold`. */
  datatype Unicode = Unicode(upper: char -> char, fold: char -> char) {
    function ToUpper(s: string): string {
      seq(|s|, i requires 0 <= i < |s| => upper(s[i]))
    }

    predicate EqualFold(s: string, t: string) {
      |s| == |t| && forall i :: 0 <= i < |s| ==> fold(s[i]) == fold(t[i])
    }
  }

  datatype Invalid = StateRequired | EndpointNameRequired | InvalidEncoding

  function OneLine(value: string): string {
    Join(Fields(value), " ")
  }

  function MultiLine(value: string): string {
    TrimSpace(ReplaceCR(ReplaceCRLF(value)))
  }

  function WithPrefix(value: string, prefix: string): string {
    if TrimSpace(prefix) == "" then value else TrimSpace(prefix) + "\n" + value
  }

  const SUFFIX := "..."

  function Truncate(value: string, maxLength: int): (r: string)
    ensures maxLength < 1 || |value| <= maxLength ==> r == value
    ensures maxLength >= 1 ==> |r| <= maxLength
    ensures maxLength >= 1 && |value| > maxLength ==> |r| == maxLength && r[|r| - 1] == '.'
    ensures |SUFFIX| < maxLength < |value| ==> value[..maxLength - |SUFFIX|] + SUFFIX == r
  {
    if maxLength < 1 || |value| <= maxLength then value
    else if maxLength <= |SUFFIX| then SUFFIX[..maxLength]
    else value[..maxLength - |SUFFIX|] + SUFFIX
  }

  function LogValue(a: Alert): string {
    var group := TrimSpace(a.endpointGroup);
    if group != "" then group + " / " + TrimSpace(a.endpointName) else TrimSpace(a.endpointName)
  }

  /** What `Validate` finds wrong; the encoding is checked on the bytes before they are runes. */
  function Problems(a: Alert, validEncoding: bool): seq<Invalid> {
    (if TrimSpace(a.state) == "" then [StateRequired] else [])
      + (if TrimSpace(a.endpointName) == "" then [EndpointNameRequired] else [])
      + (if validEncoding then [] else [InvalidEncoding])
  }

  function Optional(name: string, value: string): seq<string> {
    if value == "" then [] else [name + value]
  }

  function Head(a: Alert): seq<string> {
    [OneLine(a.state), "Endpoint: " + OneLine(LogValue(a))]
  }

  function Lines(a: Alert): seq<string> {
    Head(a)
      + Optional("URL: ", OneLine(a.endpointURL))
      + Optional("Description: ", MultiLine(a.description))
      + Optional("Errors: ", MultiLine(a.errors))
  }

  function Formatted(a: Alert, prefix: string, maxLength: int): string {
    Truncate(WithPrefix(Join(Lines(a), "\n"), prefix), maxLength)
  }

  lemma ProblemsMeaning(a: Alert, validEncoding: bool)
    ensures Describes(Problems(a, validEncoding), a, validEncoding)
  {
    BlankTrims(a.state);
    BlankTrims(a.endpointName);
  }

  /** `errs` names what is wrong with the alert, each thing once: a state or an endpoint name with
      nothing but spaces, and text that is not UTF-8. */
  predicate Describes(errs: seq<Invalid>, a: Alert, validEncoding: bool) {
    && (StateRequired in errs <==> Blank(a.state))
    && (EndpointNameRequired in errs <==> Blank(a.endpointName))
    && (InvalidEncoding in errs <==> !validEncoding)
    && (errs == [] <==> !Blank(a.state) && !Blank(a.endpointName) && validEncoding)
    && (forall i, j :: 0 <= i < j < |errs| ==> errs[i] != errs[j])
  }

  method Validate(a: Alert, validEncoding: bool) returns (errs: seq<Invalid>)
    ensures Describes(errs, a, validEncoding)
    ensures errs == Problems(a, validEncoding)
  {
    errs := [];
    if TrimSpace(a.state) == "" {
      errs := errs + [StateRequired];
    }
    if TrimSpace(a.endpointName) == "" {
      errs := errs + [EndpointNameRequired];
    }
    if !validEncoding {
      errs := errs + [InvalidEncoding];
    }
    assert errs == Problems(a, validEncoding);
    ProblemsMeaning(a, validEncoding);
  }

  method Format(a: Alert, prefix: string, maxLength: int) returns (message: string)
    ensures message == Formatted(a, prefix, maxLength)
  {
    var lines := [OneLine(a.state), "Endpoint: " + OneLine(LogValue(a))];
    var value := OneLine(a.endpointURL);
    if value != "" {
      lines := lines + ["URL: " + value];
    }
    value := MultiLine(a.description);
    if value != "" {
      lines := lines + ["Description: " + value];
    }
    value := MultiLine(a.errors);
    if value != "" {
      lines := lines + ["Errors: " + value];
    }
    assert lines == Lines(a);
    message := Truncate(WithPrefix(Join(lines, "\n"), prefix), maxLength);
  }

  /** A text body: runes, or bytes that are not UTF-8. */
  datatype Body = Text(runes: string) | Malformed

  /** The message, or nothing for an empty or malformed body. */
  function FormatText(body: Body, prefix: string, maxLength: int): Option<string> {
    if body.Malformed? then None
    else if MultiLine(body.runes) == "" then None
    else Some(Truncate(WithPrefix(MultiLine(body.runes), prefix), maxLength))
  }

  // ---- reading a text back ----

  /** The canonical state a first line reads as, or the empty string. */
  function ReadState(u: Unicode, line: string): string {
    var state := TrimSpace(line);
    var inner :=
      if |state| >= 2 && state[0] == '[' && state[|state| - 1] == ']' then TrimSpace(state[1..|state| - 1]) else state;
    var upper := u.ToUpper(inner);
    if upper == "TRIGGERED" || upper == "RESOLVED" then upper else ""
  }

  function EndpointOf(u: Unicode, line: string): Option<string> {
    match Cut(line, ':')
    case None => None
    case Some((name, value)) => if u.EqualFold(TrimSpace(name), "Endpoint") then Some(OneLine(value)) else None
  }

  /** The endpoint of the first line that names one. */
  function FirstEndpoint(u: Unicode, lines: seq<string>): string {
    if lines == [] then ""
    else if EndpointOf(u, lines[0]).Some? then EndpointOf(u, lines[0]).value
    else FirstEndpoint(u, lines[1..])
  }

  function Metadata(u: Unicode, value: string): (string, string) {
    var lines := Split(MultiLine(value), '\n');
    var state := ReadState(u, lines[0]);
    if state == "" then ("", "") else (FirstEndpoint(u, lines[1..]), state)
  }

  method TextMetadata(u: Unicode, value: string) returns (endpoint: string, state: string)
    ensures (endpoint, state) == Metadata(u, value)
  {
    var lines := Split(MultiLine(value), '\n');
    state := TrimSpace(lines[0]);
    if |state| >= 2 && state[0] == '[' && state[|state| - 1] == ']' {
      state := TrimSpace(state[1..|state| - 1]);
    }
    state := u.ToUpper(state);
    if state != "TRIGGERED" && state != "RESOLVED" {
      return "", "";
    }
    endpoint := FindEndpoint(u, lines);
  }

  /** The loop over the lines after the first. */
  method FindEndpoint(u: Unicode, lines: seq<string>) returns (endpoint: string)
    requires lines != []
    ensures endpoint == FirstEndpoint(u, lines[1..])
  {
    var i := 1;
    while i < |lines|
      invariant 1 <= i <= |lines|
      invariant FirstEndpoint(u, lines[1..]) == FirstEndpoint(u, lines[i..])
    {
      assert lines[i..][0] == lines[i] && lines[i..][1..] == lines[i + 1..];
      var cut := Cut(lines[i], ':');
      if cut.Some? && u.EqualFold(TrimSpace(cut.value.0), "Endpoint") {
        return OneLine(cut.value.1);
      }
      i := i + 1;
    }
    endpoint := "";
  }

  // ---- normalisers ----

  lemma OneLineMeaning(value: string)
    ensures forall i :: 0 <= i < |OneLine(value)| ==> Plain(OneLine(value)[i])
    ensures Trimmed(OneLine(value))
    ensures OneLine(value) == "" <==> Blank(value)
  {
    FieldsAreWords(value);
    JoinOfWords(Fields(value));
  }

  /** `oneLine` keeps every word, in order, with one space between two. */
  lemma OneLineIsOnePass(value: string)
    ensures OneLine(value) == Collapse(value, false, false)
  {
    JoinOfFieldsIsOnePass(value, false, false);
  }

  lemma OneLineIsIdempotent(value: string)
    ensures OneLine(OneLine(value)) == OneLine(value)
  {
    FieldsAreWords(value);
    FieldsOfJoin(Fields(value));
  }

  lemma MultiLineMeaning(value: string)
    ensures '\r' !in MultiLine(value) && Trimmed(MultiLine(value))
  {
    var lines := ReplaceCR(ReplaceCRLF(value));
    ReplaceCRLeavesNone(ReplaceCRLF(value));
    var from, to := TrimSpaceMeaning(lines);
  }

  /** `multiLine` is the single-pass normaliser followed by trimming. */
  lemma MultiLineIsOnePass(value: string)
    ensures MultiLine(value) == TrimSpace(NormalizeLines(value, false))
  {
    TwoPassesAreOne(value);
  }

  lemma CleanIsFixed(value: string)
    requires '\r' !in value && Trimmed(value)
    ensures MultiLine(value) == value
  {
    WithoutCRUnchanged(value);
    TrimmedIsFixed(value);
  }

  lemma MultiLineIsIdempotent(value: string)
    ensures MultiLine(MultiLine(value)) == MultiLine(value)
  {
    MultiLineMeaning(value);
    CleanIsFixed(MultiLine(value));
  }

  lemma TruncatedIsClean(value: string, maxLength: int)
    requires '\r' !in value && Trimmed(value) && value != ""
    ensures '\r' !in Truncate(value, maxLength) && Trimmed(Truncate(value, maxLength)) && Truncate(value, maxLength) != ""
  {
  }

  /** A prepared text never exceeds a positive limit, whatever the prefix, and with a blank prefix
      preparing it again changes nothing, limits of three and less included. */
  lemma FormatTextIsStable(body: Body, prefix: string, maxLength: int)
    requires FormatText(body, prefix, maxLength).Some?
    ensures var message := FormatText(body, prefix, maxLength).value;
      && (maxLength >= 1 ==> |message| <= maxLength)
      && (Blank(prefix) ==> FormatText(Text(message), prefix, maxLength) == Some(message))
  {
    if Blank(prefix) {
      BlankTrims(prefix);
      MultiLineMeaning(body.runes);
      TruncatedIsClean(MultiLine(body.runes), maxLength);
      CleanIsFixed(FormatText(body, prefix, maxLength).value);
    }
  }

  /** A text body is refused exactly when it is malformed or blank. */
  lemma FormatTextRefuses(body: Body, prefix: string, maxLength: int)
    ensures FormatText(body, prefix, maxLength).None? <==> body.Malformed? || Blank(body.runes)
  {
    if body.Text? {
      BlankMultiLine(body.runes);
    }
  }

  /** Which lines a message has: the state, the endpoint under its group, and each further field that
      is not blank. */
  lemma LinesShowFields(a: Alert)
    ensures Lines(a) ==
      [OneLine(a.state),
       "Endpoint: " + OneLine((if Blank(a.endpointGroup) then "" else TrimSpace(a.endpointGroup) + " / ") + TrimSpace(a.endpointName))]
      + (if Blank(a.endpointURL) then [] else ["URL: " + OneLine(a.endpointURL)])
      + (if Blank(a.description) then [] else ["Description: " + MultiLine(a.description)])
      + (if Blank(a.errors) then [] else ["Errors: " + MultiLine(a.errors)])
  {
    BlankTrims(a.endpointGroup);
    assert "" + TrimSpace(a.endpointName) == TrimSpace(a.endpointName);
    OneLineMeaning(a.endpointURL);
    BlankMultiLine(a.description);
    BlankMultiLine(a.errors);
  }

  // ---- prefix and limit ----

  /** A message longer than a positive limit is cut to it and ends in dots, three where they fit. */
  lemma TruncateMeaning(value: string, maxLength: int)
    ensures maxLength < 1 || |value| <= maxLength ==> Truncate(value, maxLength) == value
    ensures 1 <= maxLength <= 3 && maxLength < |value| ==> Truncate(value, maxLength) == "..."[..maxLength]
    ensures 3 < maxLength < |value| ==> Truncate(value, maxLength) == value[..maxLength - 3] + "..."
  {
  }

  /** The text under a prefix that is not blank is the trimmed prefix, a newline and the text. */
  lemma PrefixComesFirst(value: string, prefix: string, maxLength: int)
    requires !Blank(prefix)
    ensures var message := Truncate(WithPrefix(value, prefix), maxLength); var head := TrimSpace(prefix) + "\n";
      && message == Truncate(head + value, maxLength)
      && (maxLength < 1 || |head + value| <= maxLength ==> message == head + value)
      && (|head| + 3 <= maxLength ==> head <= message)
  {
    BlankTrims(prefix);
    var head := TrimSpace(prefix) + "\n";
    assert WithPrefix(value, prefix) == head + value;
    if |head| + 3 <= maxLength < |head + value| && maxLength > 3 {
      assert (head + value)[..maxLength - 3][..|head|] == head;
    }
  }

  /** The formatted alert under a prefix, in terms of the one without. */
  lemma FormatWithPrefix(a: Alert, prefix: string, maxLength: int)
    ensures Blank(prefix) ==> Formatted(a, prefix, maxLength) == Formatted(a, "", maxLength)
    ensures !Blank(prefix) ==>
      var message := Formatted(a, prefix, maxLength); var head := TrimSpace(prefix) + "\n"; var body := Formatted(a, "", 0);
      && body == Join(Lines(a), "\n")
      && (maxLength < 1 || |head + body| <= maxLength ==> message == head + body)
      && (|head| + 3 <= maxLength ==> head <= message)
      && (3 < maxLength < |head + body| ==> message == (head + body)[..maxLength - 3] + "...")
  {
    BlankTrims(prefix);
    if !Blank(prefix) {
      PrefixComesFirst(Join(Lines(a), "\n"), prefix, maxLength);
      TruncateMeaning(TrimSpace(prefix) + "\n" + Join(Lines(a), "\n"), maxLength);
    }
  }

  /** A prepared text under a prefix, in terms of the body it forwards. */
  lemma FormatTextWithPrefix(body: Body, prefix: string, maxLength: int)
    requires FormatText(body, prefix, maxLength).Some?
    ensures var message := FormatText(body, prefix, maxLength).value; var text := TrimSpace(NormalizeLines(body.runes, false));
      && (Blank(prefix) && maxLength < 1 ==> message == text)
      && (Blank(prefix) && 3 < maxLength < |text| ==> message == text[..maxLength - 3] + "...")
      && (!Blank(prefix) ==>
            var head := TrimSpace(prefix) + "\n";
            && (maxLength < 1 || |head + text| <= maxLength ==> message == head + text)
            && (|head| + 3 <= maxLength ==> head <= message)
            && (3 < maxLength < |head + text| ==> message == (head + text)[..maxLength - 3] + "..."))
  {
    BlankTrims(prefix);
    TwoPassesAreOne(body.runes);
    var text := MultiLine(body.runes);
    if Blank(prefix) {
      TruncateMeaning(text, maxLength);
    } else {
      PrefixComesFirst(text, prefix, maxLength);
      TruncateMeaning(TrimSpace(prefix) + "\n" + text, maxLength);
    }
  }

  lemma BlankMultiLine(value: string)
    ensures MultiLine(value) == "" <==> Blank(value)
  {
    BlankTrims(ReplaceCR(ReplaceCRLF(value)));
    BlankSurvives(value);
  }

  lemma {:induction false} BlankSurvives(s: string)
    ensures Blank(ReplaceCR(ReplaceCRLF(s))) <==> Blank(s)
    decreases |s|
  {
    if |s| >= 2 && s[0] == '\r' && s[1] == '\n' {
      BlankSurvives(s[2..]);
      BlankCons('\n', ReplaceCR(ReplaceCRLF(s[2..])));
      BlankCons('\n', s[2..]);
      BlankCons('\r', s[1..]);
      assert s == ['\r'] + s[1..] && s[1..] == ['\n'] + s[2..];
      assert ("\n" + ReplaceCRLF(s[2..]))[1..] == ReplaceCRLF(s[2..]);
    } else if s != "" {
      BlankSurvives(s[1..]);
      BlankCons(s[0], s[1..]);
      BlankCons(if s[0] == '\r' then '\n' else s[0], ReplaceCR(ReplaceCRLF(s[1..])));
      assert s == [s[0]] + s[1..];
      assert ([s[0]] + ReplaceCRLF(s[1..]))[1..] == ReplaceCRLF(s[1..]);
    }
  }

  lemma BlankCons(c: char, s: string)
    ensures Blank([c] + s) <==> IsSpace(c) && Blank(s)
  {
    assert ([c] + s)[1..] == s;
    if Blank([c] + s) {
      assert ([c] + s)[0] == c;
      assert forall i :: 0 <= i < |s| ==> s[i] == ([c] + s)[i + 1];
    }
  }

  // ---- round trip ----

  predicate CleanLine(line: string) {
    line != "" && '\r' !in line && !IsSpace(line[|line| - 1])
  }

  lemma PlainIsClean(s: string)
    requires forall i :: 0 <= i < |s| ==> Plain(s[i])
    ensures '\r' !in s && '\n' !in s
  {
  }

  predicate AreClean(lines: seq<string>) {
    forall k :: 0 <= k < |lines| ==> CleanLine(lines[k])
  }

  lemma OptionalIsClean(name: string, value: string)
    requires '\r' !in name && '\r' !in value && Trimmed(value)
    ensures AreClean(Optional(name, value))
  {
    if value != "" {
      assert (name + value)[|name + value| - 1] == value[|value| - 1];
    }
  }

  lemma OneLineIsClean(name: string, value: string)
    requires '\r' !in name
    ensures AreClean(Optional(name, OneLine(value)))
    ensures '\n' !in OneLine(value)
  {
    OneLineMeaning(value);
    PlainIsClean(OneLine(value));
    OptionalIsClean(name, OneLine(value));
  }

  lemma MultiLineIsClean(name: string, value: string)
    requires '\r' !in name
    ensures AreClean(Optional(name, MultiLine(value)))
  {
    MultiLineMeaning(value);
    OptionalIsClean(name, MultiLine(value));
  }

  lemma NotBlankOneLine(value: string)
    requires !Blank(value)
    ensures OneLine(value) != "" && !IsSpace(OneLine(value)[0])
  {
    OneLineMeaning(value);
  }

  lemma HeadIsClean(a: Alert)
    requires Problems(a, true) == []
    ensures AreClean(Head(a))
    ensures !IsSpace(Head(a)[0][0])
    ensures '\n' !in Head(a)[0] && '\n' !in Head(a)[1]
    ensures OneLine(LogValue(a)) != ""
  {
    BlankTrims(a.state);
    LabelIsNotBlank(a);
    LineIsClean("", a.state);
    LineIsClean("Endpoint: ", LogValue(a));
    NotBlankOneLine(a.state);
    assert "" + OneLine(a.state) == OneLine(a.state);
  }

  lemma LineIsClean(name: string, value: string)
    requires '\r' !in name && !Blank(value)
    ensures CleanLine(name + OneLine(value)) && '\n' !in OneLine(value) && OneLine(value) != ""
  {
    NotBlankOneLine(value);
    OneLineIsClean(name, value);
    assert CleanLine(Optional(name, OneLine(value))[0]);
  }

  lemma LinesAreClean(a: Alert)
    requires Problems(a, true) == []
    ensures AreClean(Lines(a))
    ensures Lines(a)[..2] == Head(a)
  {
    HeadIsClean(a);
    OneLineIsClean("URL: ", a.endpointURL);
    MultiLineIsClean("Description: ", a.description);
    MultiLineIsClean("Errors: ", a.errors);
    FourAreClean(Head(a), Optional("URL: ", OneLine(a.endpointURL)),
                 Optional("Description: ", MultiLine(a.description)), Optional("Errors: ", MultiLine(a.errors)));
  }

  lemma FourAreClean(head: seq<string>, url: seq<string>, description: seq<string>, errors: seq<string>)
    requires AreClean(head) && AreClean(url) && AreClean(description) && AreClean(errors)
    ensures AreClean(head + url + description + errors)
    ensures (head + url + description + errors)[..|head|] == head
  {
  }

  lemma LabelIsNotBlank(a: Alert)
    requires TrimSpace(a.endpointName) != ""
    ensures !Blank(LogValue(a))
  {
    var from, to := TrimSpaceMeaning(a.endpointName);
    var n := |LogValue(a)| - |TrimSpace(a.endpointName)|;
    assert LogValue(a)[n] == TrimSpace(a.endpointName)[0];
  }

  lemma {:induction false} JoinOfCleanLines(lines: seq<string>)
    requires lines != [] && AreClean(lines)
    ensures lines[0] != "" && CleanLine(Join(lines, "\n")) && Join(lines, "\n")[0] == lines[0][0]
  {
    if |lines| > 1 {
      JoinOfCleanLines(lines[1..]);
    }
  }

  /** The text of the first two lines, and what follows them. */
  lemma FirstTwoLines(a: Alert) returns (rest: string)
    ensures Join(Lines(a), "\n") == Head(a)[0] + "\n" + Head(a)[1] + rest
    ensures rest == "" || rest[0] == '\n'
  {
    rest := JoinFromTwo(Lines(a));
  }

  lemma JoinFromTwo(lines: seq<string>) returns (rest: string)
    requires |lines| >= 2
    ensures Join(lines, "\n") == lines[0] + "\n" + lines[1] + rest
    ensures rest == "" || rest[0] == '\n'
  {
    rest := if |lines| == 2 then "" else "\n" + Join(lines[2..], "\n");
    assert lines[1..][1..] == lines[2..];
    assert Join(lines[1..], "\n") == lines[1] + rest;
    assert Join(lines, "\n") == lines[0] + "\n" + (lines[1] + rest);
  }

  /** A clean text that begins with these two lines reads back as state and endpoint. */
  lemma ReadTwoLines(u: Unicode, first: string, endpoint: string, rest: string)
    requires '\n' !in first && '\n' !in "Endpoint: " + endpoint
    requires rest == "" || rest[0] == '\n'
    requires OneLine(endpoint) == endpoint
    requires var text := first + "\n" + ("Endpoint: " + endpoint) + rest; '\r' !in text && Trimmed(text)
    ensures Metadata(u, first + "\n" + ("Endpoint: " + endpoint) + rest)
         == if ReadState(u, first) == "" then ("", "") else (endpoint, ReadState(u, first))
  {
    var second := "Endpoint: " + endpoint;
    var text := first + "\n" + second + rest;
    CleanIsFixed(text);
    assert text == first + ['\n'] + (second + rest);
    SplitAt(first, '\n', second + rest);
    if rest == "" {
      assert second + rest == second;
      SplitWhole(second, '\n');
    } else {
      assert second + rest == second + ['\n'] + rest[1..];
      SplitAt(second, '\n', rest[1..]);
    }
    assert Split(text, '\n')[0] == first && Split(text, '\n')[1] == second;
    ReadEndpointLine(u, endpoint);
    assert Split(text, '\n')[1..][0] == second;
  }

  lemma ReadEndpointLine(u: Unicode, endpoint: string)
    requires OneLine(endpoint) == endpoint
    ensures EndpointOf(u, "Endpoint: " + endpoint) == Some(endpoint)
  {
    assert "Endpoint: " + endpoint == "Endpoint" + [':'] + (" " + endpoint);
    CutAt("Endpoint", ':', " " + endpoint);
    TrimmedIsFixed("Endpoint");
    assert (" " + endpoint)[1..] == endpoint;
  }

  /** A line reads as a state if it is one of the two in any case, with or without brackets. */
  lemma ReadStateMeaning(u: Unicode, line: string)
    ensures var state := ReadState(u, line); var text := TrimSpace(line);
      && (state == "" || state == "TRIGGERED" || state == "RESOLVED")
      && (forall inner :: text == "[" + inner + "]" ==> IsStateOf(u, TrimSpace(inner), state))
      && ((forall inner :: text != "[" + inner + "]") ==> IsStateOf(u, text, state))
  {
    var text := TrimSpace(line);
    if |text| >= 2 && text[0] == '[' && text[|text| - 1] == ']' {
      assert text == "[" + text[1..|text| - 1] + "]";
    }
    forall inner | text == "[" + inner + "]"
      ensures IsStateOf(u, TrimSpace(inner), ReadState(u, line))
    {
      assert text[1..|text| - 1] == inner;
    }
  }

  /** `state` is `word` in upper case if that is one of the two states, and nothing otherwise. */
  predicate IsStateOf(u: Unicode, word: string, state: string) {
    if u.ToUpper(word) == "TRIGGERED" || u.ToUpper(word) == "RESOLVED" then state == u.ToUpper(word) else state == ""
  }

  /** A line names an endpoint if what stands before its first colon is "Endpoint" in any case, but
      for spaces around it; the endpoint is the rest, on one line. */
  lemma EndpointMeaning(u: Unicode, name: string, value: string)
    requires ':' !in name
    ensures EndpointOf(u, name).None?
    ensures EndpointOf(u, name + ":" + value)
         == if |TrimSpace(name)| == 8 && forall i :: 0 <= i < 8 ==> u.fold(TrimSpace(name)[i]) == u.fold("Endpoint"[i])
            then Some(OneLine(value)) else None
  {
    CutAt(name, ':', value);
    CutNone(name, ':');
    assert name + ":" + value == name + [':'] + value;
  }

  /** The first line that names an endpoint decides. */
  lemma {:induction false} FirstEndpointMeaning(u: Unicode, lines: seq<string>) returns (n: nat)
    ensures n <= |lines| && (forall k :: 0 <= k < n ==> EndpointOf(u, lines[k]).None?)
    ensures n < |lines| ==> EndpointOf(u, lines[n]) == Some(FirstEndpoint(u, lines))
    ensures n == |lines| ==> FirstEndpoint(u, lines) == ""
  {
    if lines == [] || EndpointOf(u, lines[0]).Some? {
      n := 0;
    } else {
      n := FirstEndpointMeaning(u, lines[1..]);
      n := n + 1;
    }
  }

  /** Line endings and blank ends of a body do not matter to the log fields. */
  lemma MetadataOfNormalised(u: Unicode, value: string)
    ensures Metadata(u, value) == Metadata(u, TrimSpace(NormalizeLines(value, false)))
  {
    TwoPassesAreOne(value);
    MultiLineIsIdempotent(value);
  }

  /** `written` is one of the two states in any case. */
  predicate Writes(u: Unicode, written: string, word: string) {
    && (word == "TRIGGERED" || word == "RESOLVED")
    && |written| == |word| && written[0] != '['
    && forall i :: 0 <= i < |word| ==> u.upper(written[i]) == word[i] && !IsSpace(written[i])
  }

  /** The smallest texts: one of the two states in any case, bare or in brackets, and an endpoint. */
  lemma ReadsLiterally(u: Unicode, written: string, word: string, endpoint: string)
    requires Writes(u, written, word) && OneLine(endpoint) == endpoint && endpoint != ""
    ensures Metadata(u, written + "\n" + ("Endpoint: " + endpoint)) == (endpoint, word)
    ensures Metadata(u, ("[" + written + "]") + "\n" + ("Endpoint: " + endpoint)) == (endpoint, word)
  {
    ReadsAsState(u, written, word);
    ReadsInBrackets(u, written, word);
    ReadsOneEndpoint(u, written, endpoint);
    ReadsOneEndpoint(u, "[" + written + "]", endpoint);
  }

  lemma ReadsAsState(u: Unicode, written: string, word: string)
    requires Writes(u, written, word)
    ensures ReadState(u, written) == word
  {
    TrimmedIsFixed(written);
    assert u.ToUpper(written) == word;
  }

  lemma ReadsInBrackets(u: Unicode, written: string, word: string)
    requires Writes(u, written, word)
    ensures ReadState(u, "[" + written + "]") == word
  {
    var line := "[" + written + "]";
    TrimmedIsFixed(line);
    TrimmedIsFixed(written);
    assert line[1..|line| - 1] == written;
    assert u.ToUpper(written) == word;
  }

  lemma ReadsOneEndpoint(u: Unicode, first: string, endpoint: string)
    requires '\n' !in first && '\r' !in first && first != "" && !IsSpace(first[0])
    requires OneLine(endpoint) == endpoint && endpoint != "" && ReadState(u, first) != ""
    ensures Metadata(u, first + "\n" + ("Endpoint: " + endpoint)) == (endpoint, ReadState(u, first))
  {
    OneLineMeaning(endpoint);
    PlainIsClean(endpoint);
    TwoLinesAreTrimmed(first, "Endpoint: ", endpoint);
    ReadTwoLines(u, first, endpoint, "");
  }

  lemma TwoLinesAreTrimmed(first: string, name: string, value: string)
    requires first != "" && !IsSpace(first[0]) && '\r' !in first
    requires value != "" && Trimmed(value) && '\r' !in value && '\r' !in name
    ensures var text := first + "\n" + (name + value);
      text + "" == text && Trimmed(text) && '\r' !in text
  {
  }

  /** The formatted text keeps its first two lines: it is not cut, or the cut comes after them and
      their newlines. */
  predicate KeepsTwoLines(a: Alert, maxLength: int) {
    || maxLength < 1
    || |Join(Lines(a), "\n")| <= maxLength
    || |Head(a)[0]| + 1 + |Head(a)[1]| + 1 <= maxLength - |SUFFIX|
  }

  /** Formatting a valid alert and reading the log fields back returns the one-line endpoint label
      and the canonical state, exactly when the state reads as one; any other state reads as no
      metadata at all. */
  lemma RoundTrip(u: Unicode, a: Alert, prefix: string, maxLength: int)
    requires Problems(a, true) == [] && Blank(prefix) && KeepsTwoLines(a, maxLength)
    ensures Metadata(u, Formatted(a, prefix, maxLength))
         == if ReadState(u, OneLine(a.state)) == "" then ("", "")
            else (OneLine(LogValue(a)), ReadState(u, OneLine(a.state)))
  {
    var kept := MessageIsHeaded(a, prefix, maxLength);
    HeadIsClean(a);
    OneLineIsIdempotent(LogValue(a));
    ReadTwoLines(u, Head(a)[0], OneLine(LogValue(a)), kept);
  }

  /** The message is the first two lines and something after them, and clean. */
  lemma MessageIsHeaded(a: Alert, prefix: string, maxLength: int) returns (kept: string)
    requires Problems(a, true) == [] && Blank(prefix) && KeepsTwoLines(a, maxLength)
    ensures var message := Formatted(a, prefix, maxLength);
      && message == Head(a)[0] + "\n" + Head(a)[1] + kept
      && '\r' !in message && Trimmed(message)
    ensures kept == "" || kept[0] == '\n'
  {
    BlankTrims(prefix);
    var rest := TextIsClean(a);
    TruncatedIsClean(Join(Lines(a), "\n"), maxLength);
    kept := CutAfterHead(Head(a)[0] + "\n" + Head(a)[1], rest, maxLength);
  }

  lemma CutAfterHead(head: string, rest: string, maxLength: int) returns (kept: string)
    requires rest == "" || rest[0] == '\n'
    requires maxLength < 1 || |head + rest| <= maxLength || |head| + 1 <= maxLength - |SUFFIX|
    ensures Truncate(head + rest, maxLength) == head + kept
    ensures kept == "" || kept[0] == '\n'
  {
    if maxLength < 1 || |head + rest| <= maxLength {
      kept := rest;
    } else {
      kept := rest[..maxLength - |SUFFIX| - |head|] + SUFFIX;
      assert (head + rest)[..maxLength - |SUFFIX|] == head + rest[..maxLength - |SUFFIX| - |head|];
    }
  }

  lemma TextIsClean(a: Alert) returns (rest: string)
    requires Problems(a, true) == []
    ensures var text := Join(Lines(a), "\n");
      && text == Head(a)[0] + "\n" + Head(a)[1] + rest
      && '\r' !in text && Trimmed(text) && text != ""
    ensures rest == "" || rest[0] == '\n'
  {
    LinesAreClean(a);
    HeadIsClean(a);
    assert Lines(a)[0] == Head(a)[0];
    JoinOfCleanLines(Lines(a));
    rest := FirstTwoLines(a);
  }
}
