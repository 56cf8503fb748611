/** What a truncated alert reads back as (internal/gatus/alert.go): exactly when `TextMetadata`
    still finds the endpoint and the state that `Format` wrote. */
module AlertTruncation {
  import opened Options
  import opened GoStrings
  import opened A = Alert

  const LABEL := "Endpoint: "

  /** The length of the first two lines with the newline between them. */
  function HeadLength(a: Alert): nat {
    |Head(a)[0]| + 1 + |Head(a)[1]|
  }

  predicate EndsInDots(s: string) {
    |s| >= |SUFFIX| && s[|s| - |SUFFIX|..] == SUFFIX
  }

  /** The limit leaves the log fields readable: both lines and their newlines are kept, or what the
      cut took away from the endpoint was dots, and the dots that end the message replace it. The
      last case is an endpoint of three dots that moves up to the colon. */
  predicate StillReads(a: Alert, maxLength: int) {
    || KeepsTwoLines(a, maxLength)
    || (maxLength == HeadLength(a) && EndsInDots(OneLine(LogValue(a))))
    || (maxLength == HeadLength(a) - 1 && OneLine(LogValue(a)) == SUFFIX)
  }

  // ---- cutting words ----

  /** Words cut anywhere and ended with dots are words again. */
  lemma {:induction false} WordsCut(words: seq<string>, k: nat) returns (cut: seq<string>)
    requires words != [] && AreWords(words) && k <= |Join(words, " ")|
    ensures AreWords(cut) && Join(cut, " ") == Join(words, " ")[..k] + SUFFIX
  {
    var text := Join(words, " ");
    if k <= |words[0]| {
      cut := [words[0][..k] + SUFFIX];
      assert text[..k] == words[0][..k];
    } else {
      var n := k - |words[0]| - 1;
      var rest := WordsCut(words[1..], n);
      cut := [words[0]] + rest;
      assert cut[1..] == rest;
      assert rest != [];
      assert text[..k] == words[0] + " " + Join(words[1..], " ")[..n];
    }
  }

  lemma CutIsOneLine(value: string, k: nat)
    requires OneLine(value) == value && value != "" && k <= |value|
    ensures OneLine(value[..k] + SUFFIX) == value[..k] + SUFFIX
  {
    FieldsAreWords(value);
    var cut := WordsCut(Fields(value), k);
    FieldsOfJoin(cut);
  }

  // ---- reading short texts ----

  lemma ReadOneLine(u: Unicode, line: string)
    requires '\n' !in line && '\r' !in line && Trimmed(line)
    ensures Metadata(u, line).0 == ""
  {
    CleanIsFixed(line);
    SplitWhole(line, '\n');
  }

  lemma ReadSecondLine(u: Unicode, first: string, second: string)
    requires '\n' !in first && '\n' !in second
    requires '\r' !in first + "\n" + second && Trimmed(first + "\n" + second)
    ensures Metadata(u, first + "\n" + second)
         == if ReadState(u, first) == "" then ("", "")
            else (if EndpointOf(u, second).Some? then EndpointOf(u, second).value else "", ReadState(u, first))
  {
    var text := first + "\n" + second;
    CleanIsFixed(text);
    assert text == first + ['\n'] + second;
    SplitAt(first, '\n', second);
    SplitWhole(second, '\n');
    assert Split(text, '\n') == [first, second];
    assert [first, second][1..] == [second] && [second][1..] == [];
    assert FirstEndpoint(u, []) == "";
  }

  /** What is left of the endpoint line when it is cut after `n` runes. */
  function CutLine(endpoint: string, n: nat): string
    requires n <= |LABEL + endpoint|
  {
    (LABEL + endpoint)[..n] + SUFFIX
  }

  /** The endpoint such a line names: none before the colon, only dots right after it. */
  function CutEndpoint(endpoint: string, n: nat): Option<string>
    requires n <= |LABEL + endpoint|
  {
    if n < |LABEL| - 1 then None
    else if n == |LABEL| - 1 then Some(SUFFIX)
    else Some(endpoint[..n - |LABEL|] + SUFFIX)
  }

  /** Dots right after the colon are the endpoint. */
  lemma ReadDots(u: Unicode)
    requires OneLine(SUFFIX) == SUFFIX
    ensures EndpointOf(u, "Endpoint" + [':'] + SUFFIX) == Some(SUFFIX)
  {
    CutAt("Endpoint", ':', SUFFIX);
    TrimmedIsFixed("Endpoint");
  }

  lemma ReadCutLine(u: Unicode, endpoint: string, n: nat)
    requires OneLine(endpoint) == endpoint && endpoint != ""
    requires n <= |LABEL + endpoint|
    ensures EndpointOf(u, CutLine(endpoint, n)) == CutEndpoint(endpoint, n)
  {
    if n < |LABEL| - 1 {
      assert CutLine(endpoint, n) == "Endpoint"[..n] + SUFFIX;
      CutNone(CutLine(endpoint, n), ':');
    } else if n == |LABEL| - 1 {
      CutIsOneLine(endpoint, 0);
      assert endpoint[..0] + SUFFIX == SUFFIX;
      assert CutLine(endpoint, n) == "Endpoint" + [':'] + SUFFIX;
      ReadDots(u);
    } else {
      var cut := endpoint[..n - |LABEL|] + SUFFIX;
      CutIsOneLine(endpoint, n - |LABEL|);
      assert CutLine(endpoint, n) == LABEL + cut;
      ReadEndpointLine(u, cut);
    }
  }

  // ---- where the cut falls ----

  function TextOf(first: string, endpoint: string, rest: string): string {
    first + "\n" + (LABEL + endpoint) + rest
  }

  /** The parts of a formatted alert: its first line, its endpoint, and what follows them. */
  predicate IsMessage(first: string, endpoint: string, rest: string) {
    && '\n' !in first && first != ""
    && '\n' !in LABEL + endpoint && OneLine(endpoint) == endpoint && endpoint != ""
    && '\r' !in TextOf(first, endpoint, rest) && Trimmed(TextOf(first, endpoint, rest))
  }

  /** A cut within the first line leaves no endpoint. */
  lemma CutInFirstLine(u: Unicode, first: string, rest: string, maxLength: int)
    requires '\n' !in first && '\r' !in first + "\n" + rest && Trimmed(first + "\n" + rest) && first != ""
    requires 1 <= maxLength < |first + "\n" + rest| && maxLength - |SUFFIX| <= |first|
    ensures Metadata(u, Truncate(first + "\n" + rest, maxLength)).0 == ""
  {
    var text := first + "\n" + rest;
    var message := Truncate(text, maxLength);
    TruncatedIsClean(text, maxLength);
    if |SUFFIX| < maxLength {
      assert text[..maxLength - |SUFFIX|] == first[..maxLength - |SUFFIX|];
    }
    assert '\n' !in message;
    ReadOneLine(u, message);
  }

  /** A cut within the second line, after `n` of its runes. */
  lemma CutInSecondLine(u: Unicode, first: string, endpoint: string, rest: string, n: nat)
    requires IsMessage(first, endpoint, rest) && ReadState(u, first) != ""
    requires n <= |LABEL + endpoint|
    requires |first| + 1 + n + |SUFFIX| < |TextOf(first, endpoint, rest)|
    ensures Metadata(u, Truncate(TextOf(first, endpoint, rest), |first| + 1 + n + |SUFFIX|))
         == (if CutEndpoint(endpoint, n).Some? then CutEndpoint(endpoint, n).value else "", ReadState(u, first))
  {
    var text := TextOf(first, endpoint, rest);
    var maxLength := |first| + 1 + n + |SUFFIX|;
    TruncatedIsClean(text, maxLength);
    TruncateInSecondLine(first, LABEL + endpoint, rest, n);
    ReadCutLine(u, endpoint, n);
    ReadSecondLine(u, first, CutLine(endpoint, n));
  }

  lemma TruncateInSecondLine(first: string, second: string, rest: string, n: nat)
    requires n <= |second| && |first| + 1 + n + |SUFFIX| < |first + "\n" + second + rest|
    ensures Truncate(first + "\n" + second + rest, |first| + 1 + n + |SUFFIX|) == first + "\n" + (second[..n] + SUFFIX)
  {
    assert (first + "\n" + second + rest)[..|first| + 1 + n] == first + "\n" + second[..n];
  }

  /** A line of `length` runes, dots included, names the whole endpoint. */
  predicate OnlyDotsLost(endpoint: string, length: int) {
    || (length == |LABEL + endpoint| && EndsInDots(endpoint))
    || (length == |LABEL + endpoint| - 1 && endpoint == SUFFIX)
  }

  /** When the cut endpoint is the whole one. */
  lemma CutEndpointIsWhole(endpoint: string, n: nat)
    requires endpoint != "" && n <= |LABEL + endpoint|
    ensures (if CutEndpoint(endpoint, n).Some? then CutEndpoint(endpoint, n).value else "") == endpoint
      <==> OnlyDotsLost(endpoint, n + |SUFFIX|)
  {
    if n >= |LABEL| && EndsInDots(endpoint) && n + |SUFFIX| == |LABEL + endpoint| {
      assert endpoint == endpoint[..n - |LABEL|] + endpoint[n - |LABEL|..];
    }
    if n >= |LABEL| && endpoint == endpoint[..n - |LABEL|] + SUFFIX {
      assert endpoint[n - |LABEL|..] == SUFFIX;
    }
    if EndsInDots(endpoint) && |endpoint| == |SUFFIX| {
      assert endpoint[0..] == endpoint;
    }
  }

  /** The exact condition: for a valid alert whose state reads as one, the formatted and cut text
      gives back the one-line endpoint and the state if and only if `StillReads`. */
  lemma ReadsBackExactly(u: Unicode, a: Alert, prefix: string, maxLength: int)
    requires Problems(a, true) == [] && Blank(prefix)
    requires ReadState(u, OneLine(a.state)) != ""
    ensures Metadata(u, Formatted(a, prefix, maxLength)) == (OneLine(LogValue(a)), ReadState(u, OneLine(a.state)))
      <==> StillReads(a, maxLength)
  {
    if KeepsTwoLines(a, maxLength) {
      RoundTrip(u, a, prefix, maxLength);
    } else {
      var rest := MessageParts(a, prefix, maxLength);
      CutReadsBack(u, Head(a)[0], OneLine(LogValue(a)), rest, maxLength);
    }
  }

  lemma MessageParts(a: Alert, prefix: string, maxLength: int) returns (rest: string)
    requires Problems(a, true) == [] && Blank(prefix)
    ensures IsMessage(Head(a)[0], OneLine(LogValue(a)), rest)
    ensures Formatted(a, prefix, maxLength) == Truncate(TextOf(Head(a)[0], OneLine(LogValue(a)), rest), maxLength)
    ensures Join(Lines(a), "\n") == TextOf(Head(a)[0], OneLine(LogValue(a)), rest)
  {
    BlankTrims(prefix);
    rest := TextIsClean(a);
    HeadIsClean(a);
    OneLineIsIdempotent(LogValue(a));
  }

  lemma CutBefore(u: Unicode, first: string, endpoint: string, rest: string, maxLength: int)
    requires IsMessage(first, endpoint, rest)
    requires 1 <= maxLength < |TextOf(first, endpoint, rest)| && maxLength - |SUFFIX| <= |first|
    ensures Metadata(u, Truncate(TextOf(first, endpoint, rest), maxLength)).0 == ""
  {
    assert TextOf(first, endpoint, rest) == first + "\n" + (LABEL + endpoint + rest);
    CutInFirstLine(u, first, LABEL + endpoint + rest, maxLength);
  }

  lemma CutWithin(u: Unicode, first: string, endpoint: string, rest: string, n: nat)
    requires IsMessage(first, endpoint, rest) && ReadState(u, first) != ""
    requires n <= |LABEL + endpoint| && |first| + 1 + n + |SUFFIX| < |TextOf(first, endpoint, rest)|
    ensures Metadata(u, Truncate(TextOf(first, endpoint, rest), |first| + 1 + n + |SUFFIX|)) == (endpoint, ReadState(u, first))
      <==> OnlyDotsLost(endpoint, n + |SUFFIX|)
  {
    CutInSecondLine(u, first, endpoint, rest, n);
    CutEndpointIsWhole(endpoint, n);
  }

  lemma CutReadsBack(u: Unicode, first: string, endpoint: string, rest: string, maxLength: int)
    requires IsMessage(first, endpoint, rest) && ReadState(u, first) != ""
    requires 1 <= maxLength < |TextOf(first, endpoint, rest)|
    requires maxLength - |SUFFIX| <= |first| + 1 + |LABEL + endpoint|
    ensures Metadata(u, Truncate(TextOf(first, endpoint, rest), maxLength)) == (endpoint, ReadState(u, first))
      <==> OnlyDotsLost(endpoint, maxLength - |first| - 1)
  {
    if maxLength - |SUFFIX| <= |first| {
      CutBefore(u, first, endpoint, rest, maxLength);
    } else {
      CutWithin(u, first, endpoint, rest, maxLength - |SUFFIX| - |first| - 1);
    }
  }

  // ---- other states ----

  /** A line that ends in dots is no state, if upper case leaves a dot alone. */
  lemma DotsAreNoState(u: Unicode, line: string)
    requires u.upper('.') == '.' && line != "" && Trimmed(line) && line[|line| - 1] == '.'
    ensures ReadState(u, line) == ""
  {
    TrimmedIsFixed(line);
    assert u.ToUpper(line)[|line| - 1] == '.';
  }

  lemma NoStateInOneLine(u: Unicode, line: string)
    requires '\n' !in line && '\r' !in line && Trimmed(line) && ReadState(u, line) == ""
    ensures Metadata(u, line) == ("", "")
  {
    CleanIsFixed(line);
    SplitWhole(line, '\n');
  }

  lemma NoStateWhenCutInFirstLine(u: Unicode, first: string, rest: string, maxLength: int)
    requires u.upper('.') == '.'
    requires '\n' !in first && '\r' !in first + "\n" + rest && Trimmed(first + "\n" + rest) && first != ""
    requires 1 <= maxLength < |first + "\n" + rest| && maxLength - |SUFFIX| <= |first|
    ensures Metadata(u, Truncate(first + "\n" + rest, maxLength)) == ("", "")
  {
    var text := first + "\n" + rest;
    var message := Truncate(text, maxLength);
    TruncatedIsClean(text, maxLength);
    if |SUFFIX| < maxLength {
      assert text[..maxLength - |SUFFIX|] == first[..maxLength - |SUFFIX|];
    }
    assert '\n' !in message;
    DotsAreNoState(u, message);
    NoStateInOneLine(u, message);
  }

  lemma NoStateWhenCutInSecondLine(u: Unicode, first: string, second: string, rest: string, n: nat)
    requires '\n' !in first && '\n' !in second && first != "" && ReadState(u, first) == ""
    requires var text := first + "\n" + second + rest; '\r' !in text && Trimmed(text)
    requires n <= |second| && |first| + 1 + n + |SUFFIX| < |first + "\n" + second + rest|
    ensures Metadata(u, Truncate(first + "\n" + second + rest, |first| + 1 + n + |SUFFIX|)) == ("", "")
  {
    TruncatedIsClean(first + "\n" + second + rest, |first| + 1 + n + |SUFFIX|);
    TruncateInSecondLine(first, second, rest, n);
    ReadSecondLine(u, first, second[..n] + SUFFIX);
  }

  /** A state that does not read as one stays unread under every limit: no cut turns it into one. */
  lemma UnreadStateStaysUnread(u: Unicode, a: Alert, prefix: string, maxLength: int)
    requires Problems(a, true) == [] && Blank(prefix)
    requires u.upper('.') == '.' && ReadState(u, OneLine(a.state)) == ""
    ensures Metadata(u, Formatted(a, prefix, maxLength)) == ("", "")
  {
    if KeepsTwoLines(a, maxLength) {
      RoundTrip(u, a, prefix, maxLength);
    } else {
      var rest := MessageParts(a, prefix, maxLength);
      UnreadWhenCut(u, Head(a)[0], OneLine(LogValue(a)), rest, maxLength);
    }
  }

  lemma UnreadWhenCut(u: Unicode, first: string, endpoint: string, rest: string, maxLength: int)
    requires u.upper('.') == '.' && IsMessage(first, endpoint, rest) && ReadState(u, first) == ""
    requires 1 <= maxLength < |TextOf(first, endpoint, rest)|
    requires maxLength - |SUFFIX| <= |first| + 1 + |LABEL + endpoint|
    ensures Metadata(u, Truncate(TextOf(first, endpoint, rest), maxLength)) == ("", "")
  {
    if maxLength - |SUFFIX| <= |first| {
      assert TextOf(first, endpoint, rest) == first + "\n" + (LABEL + endpoint + rest);
      NoStateWhenCutInFirstLine(u, first, LABEL + endpoint + rest, maxLength);
    } else {
      NoStateWhenCutInSecondLine(u, first, LABEL + endpoint, rest, maxLength - |SUFFIX| - |first| - 1);
    }
  }
}
