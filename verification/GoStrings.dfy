/** The functions of Go's `strings` and `unicode` packages that alert texts go through
    (internal/gatus/alert.go), on sequences of runes. */
module GoStrings {
  import opened Options

  /** `unicode.IsSpace`. */
  predicate IsSpace(c: char) {
    || '\t' <= c <= '\r' || c == ' ' || c == '\U{85}' || c == '\U{A0}' || c == '\U{1680}'
    || '\U{2000}' <= c <= '\U{200A}' || c == '\U{2028}' || c == '\U{2029}' || c == '\U{202F}'
    || c == '\U{205F}' || c == '\U{3000}'
  }

  function TrimLeft(s: string): string {
    if s != "" && IsSpace(s[0]) then TrimLeft(s[1..]) else s
  }

  function TrimRight(s: string): string {
    if s != "" && IsSpace(s[|s| - 1]) then TrimRight(s[..|s| - 1]) else s
  }

  function TrimSpace(s: string): string {
    TrimRight(TrimLeft(s))
  }

  function Word(s: string): (w: string)
    ensures w <= s
  {
    if s == "" || IsSpace(s[0]) then "" else [s[0]] + Word(s[1..])
  }

  function Fields(s: string): seq<string>
    decreases |s|
  {
    if s == "" then []
    else if IsSpace(s[0]) then Fields(s[1..])
    else [Word(s)] + Fields(s[|Word(s)|..])
  }

  function Join(parts: seq<string>, sep: string): string {
    if parts == [] then ""
    else if |parts| == 1 then parts[0]
    else parts[0] + sep + Join(parts[1..], sep)
  }

  /** `strings.Split` for a separator of one rune. */
  function Split(s: string, sep: char): (parts: seq<string>)
    ensures parts != []
  {
    if s == "" then [""]
    else if s[0] == sep then [""] + Split(s[1..], sep)
    else
      var rest := Split(s[1..], sep);
      [[s[0]] + rest[0]] + rest[1..]
  }

  /** `strings.Cut` at the first `sep`. */
  function Cut(s: string, sep: char): Option<(string, string)> {
    if s == "" then None
    else if s[0] == sep then Some(("", s[1..]))
    else match Cut(s[1..], sep)
      case None => None
      case Some((before, after)) => Some(([s[0]] + before, after))
  }

  /** `strings.ReplaceAll(s, "\r\n", "\n")`. */
  function ReplaceCRLF(s: string): string {
    if |s| >= 2 && s[0] == '\r' && s[1] == '\n' then "\n" + ReplaceCRLF(s[2..])
    else if s == "" then ""
    else [s[0]] + ReplaceCRLF(s[1..])
  }

  /** `strings.ReplaceAll(s, "\r", "\n")`. */
  function ReplaceCR(s: string): string {
    if s == "" then ""
    else [if s[0] == '\r' then '\n' else s[0]] + ReplaceCR(s[1..])
  }

  // ---- trimming ----

  /** No space at either end. */
  predicate Trimmed(s: string) {
    s != "" ==> !IsSpace(s[0]) && !IsSpace(s[|s| - 1])
  }

  predicate Blank(s: string) {
    forall i :: 0 <= i < |s| ==> IsSpace(s[i])
  }

  lemma {:induction false} TrimLeftMeaning(s: string)
    ensures |TrimLeft(s)| <= |s| && TrimLeft(s) == s[|s| - |TrimLeft(s)|..]
    ensures Blank(s[..|s| - |TrimLeft(s)|])
    ensures TrimLeft(s) != "" ==> !IsSpace(TrimLeft(s)[0])
  {
    if s != "" && IsSpace(s[0]) {
      TrimLeftMeaning(s[1..]);
      var n := |s| - |TrimLeft(s)|;
      assert s[..n] == [s[0]] + s[1..][..n - 1];
    }
  }

  lemma {:induction false} TrimRightMeaning(s: string)
    ensures |TrimRight(s)| <= |s| && TrimRight(s) == s[..|TrimRight(s)|]
    ensures Blank(s[|TrimRight(s)|..])
    ensures TrimRight(s) != "" ==> !IsSpace(TrimRight(s)[|TrimRight(s)| - 1])
  {
    if s != "" && IsSpace(s[|s| - 1]) {
      var t := s[..|s| - 1];
      TrimRightMeaning(t);
      var n := |TrimRight(s)|;
      assert s[n..] == t[n..] + [s[|s| - 1]];
    }
  }

  lemma SliceOfTail(s: string, from: nat, n: nat)
    requires from + n <= |s|
    ensures s[from..][..n] == s[from..from + n]
    ensures s[from..][n..] == s[from + n..]
  {
  }

  /** `TrimSpace` cuts blank ends and nothing else. */
  lemma TrimSpaceMeaning(s: string) returns (from: nat, to: nat)
    ensures from <= to <= |s| && TrimSpace(s) == s[from..to]
    ensures Blank(s[..from]) && Blank(s[to..]) && Trimmed(TrimSpace(s))
  {
    TrimLeftMeaning(s);
    TrimRightMeaning(TrimLeft(s));
    from := |s| - |TrimLeft(s)|;
    to := from + |TrimSpace(s)|;
    SliceOfTail(s, from, |TrimSpace(s)|);
    if TrimSpace(s) != "" {
      assert TrimSpace(s)[0] == TrimLeft(s)[0];
    }
  }

  lemma TrimmedIsFixed(s: string)
    requires Trimmed(s)
    ensures TrimSpace(s) == s
  {
  }

  lemma FixedIsTrimmed(s: string)
    ensures TrimSpace(s) == s <==> Trimmed(s)
  {
    var from, to := TrimSpaceMeaning(s);
  }

  lemma BlankTrims(s: string)
    ensures TrimSpace(s) == "" <==> Blank(s)
  {
    var from, to := TrimSpaceMeaning(s);
    if TrimSpace(s) == "" {
      assert s == s[..from] + s[to..];
      assert forall i :: 0 <= i < |s| ==> s[i] == if i < from then s[..from][i] else s[to..][i - to];
    } else {
      assert s[from] == TrimSpace(s)[0];
    }
  }

  // ---- fields ----

  predicate IsWord(w: string) {
    w != "" && forall i :: 0 <= i < |w| ==> !IsSpace(w[i])
  }

  predicate AreWords(parts: seq<string>) {
    forall k :: 0 <= k < |parts| ==> IsWord(parts[k])
  }

  lemma {:induction false} WordMeaning(s: string)
    ensures forall i :: 0 <= i < |Word(s)| ==> !IsSpace(Word(s)[i])
    ensures |Word(s)| < |s| ==> IsSpace(s[|Word(s)|])
    ensures s != "" && !IsSpace(s[0]) ==> Word(s) != ""
  {
    if s != "" && !IsSpace(s[0]) {
      WordMeaning(s[1..]);
    }
  }

  lemma {:induction false} FieldsAreWords(s: string)
    ensures AreWords(Fields(s))
    ensures Fields(s) == [] <==> Blank(s)
    decreases |s|
  {
    if s != "" {
      if IsSpace(s[0]) {
        FieldsAreWords(s[1..]);
        assert Blank(s) <==> Blank(s[1..]);
      } else {
        WordMeaning(s);
        FieldsAreWords(s[|Word(s)|..]);
      }
    }
  }

  lemma {:induction false} WordOfWord(w: string, s: string)
    requires IsWord(w) || w == ""
    requires s == "" || IsSpace(s[0])
    ensures Word(w + s) == w
  {
    if w != "" {
      assert (w + s)[1..] == w[1..] + s;
      WordOfWord(w[1..], s);
    } else {
      assert w + s == s;
    }
  }

  /** Joining words with spaces and splitting again gives the words back. */
  lemma {:induction false} FieldsOfJoin(words: seq<string>)
    requires AreWords(words)
    ensures Fields(Join(words, " ")) == words
  {
    if words != [] {
      var rest := if |words| == 1 then "" else " " + Join(words[1..], " ");
      assert Join(words, " ") == words[0] + rest;
      WordOfWord(words[0], rest);
      assert (words[0] + rest)[|words[0]|..] == rest;
      FieldsOfJoin(words[1..]);
      if |words| > 1 {
        assert rest[1..] == Join(words[1..], " ");
      }
      assert Fields(rest) == words[1..];
    }
  }

  predicate Plain(c: char) {
    !IsSpace(c) || c == ' '
  }

  lemma {:induction false} JoinOfWords(words: seq<string>)
    requires AreWords(words)
    ensures forall i :: 0 <= i < |Join(words, " ")| ==> Plain(Join(words, " ")[i])
    ensures Trimmed(Join(words, " "))
    ensures Join(words, " ") == "" <==> words == []
  {
    if |words| == 1 {
      assert IsWord(words[0]);
    } else if |words| > 1 {
      JoinOfWords(words[1..]);
      assert IsWord(words[0]);
    }
  }

  /** Runs of spaces become one space, and those at the ends nothing, in one pass: `gap` remembers a
      space just seen, `started` that a word came before it. */
  function Collapse(s: string, gap: bool, started: bool): string {
    if s == "" then ""
    else if IsSpace(s[0]) then Collapse(s[1..], true, started)
    else (if gap && started then " " else "") + [s[0]] + Collapse(s[1..], false, true)
  }

  lemma {:induction false} CollapseWord(w: string, s: string)
    requires forall i :: 0 <= i < |w| ==> !IsSpace(w[i])
    ensures Collapse(w + s, false, true) == w + Collapse(s, false, true)
  {
    if w == "" {
      assert w + s == s;
    } else {
      assert (w + s)[1..] == w[1..] + s;
      CollapseWord(w[1..], s);
      assert [w[0]] + (w[1..] + Collapse(s, false, true)) == w + Collapse(s, false, true);
    }
  }

  /** What follows a word: nothing, or a space and the rest. */
  lemma {:induction false} CollapseRest(s: string)
    requires s == "" || IsSpace(s[0])
    ensures Collapse(s, false, true) == Collapse(s, true, true)
  {
  }

  /** Joining the fields with spaces is that one pass. */
  lemma {:induction false} JoinOfFieldsIsOnePass(s: string, gap: bool, started: bool)
    requires started ==> gap
    ensures Collapse(s, gap, started) == (if started && Fields(s) != [] then " " else "") + Join(Fields(s), " ")
    decreases |s|
  {
    if s != "" {
      if IsSpace(s[0]) {
        JoinOfFieldsIsOnePass(s[1..], true, started);
        CollapseGap(s[1..], started);
      } else {
        WordMeaning(s);
        CollapseFromWord(s, gap, started);
        JoinOfFieldsIsOnePass(s[|Word(s)|..], true, true);
        JoinOfMore(Word(s), Fields(s[|Word(s)|..]));
      }
    }
  }

  lemma Regroup(lead: string, c: char, s: string, t: string)
    ensures lead + [c] + (s + t) == lead + (([c] + s) + t)
  {
  }

  lemma {:induction false} CollapseFromWord(s: string, gap: bool, started: bool)
    requires s != "" && !IsSpace(s[0])
    ensures Collapse(s, gap, started)
         == (if gap && started then " " else "") + (Word(s) + Collapse(s[|Word(s)|..], true, true))
  {
    WordMeaning(s);
    var w, rest := Word(s), s[|Word(s)|..];
    assert s[1..] == w[1..] + rest && w == [s[0]] + w[1..];
    CollapseWord(w[1..], rest);
    CollapseRest(rest);
    Regroup(if gap && started then " " else "", s[0], w[1..], Collapse(rest, true, true));
  }

  lemma CollapseGap(s: string, started: bool)
    ensures !started ==> Collapse(s, true, started) == Collapse(s, false, started)
  {
    if s != "" && IsSpace(s[0]) {
      CollapseGap(s[1..], started);
    }
  }

  lemma JoinOfMore(w: string, words: seq<string>)
    ensures Join([w] + words, " ") == w + (if words == [] then "" else " ") + Join(words, " ")
  {
    assert ([w] + words)[1..] == words;
  }

  // ---- splitting ----

  /** Splitting takes a text apart at every separator, and joining puts it together again. */
  lemma {:induction false} SplitMeaning(s: string, sep: char)
    ensures Join(Split(s, sep), [sep]) == s
    ensures forall k :: 0 <= k < |Split(s, sep)| ==> sep !in Split(s, sep)[k]
  {
    if s != "" {
      var rest := Split(s[1..], sep);
      SplitMeaning(s[1..], sep);
      if s[0] == sep {
        assert ([""] + rest)[1..] == rest;
        assert s == [sep] + s[1..];
      } else {
        var parts := [[s[0]] + rest[0]] + rest[1..];
        assert parts[1..] == rest[1..];
        assert s == [s[0]] + s[1..];
      }
    }
  }

  lemma {:induction false} SplitAt(s: string, sep: char, t: string)
    requires sep !in s
    ensures Split(s + [sep] + t, sep) == [s] + Split(t, sep)
  {
    if s == "" {
      assert s + [sep] + t == [sep] + t;
    } else {
      assert (s + [sep] + t)[1..] == s[1..] + [sep] + t;
      SplitAt(s[1..], sep, t);
      assert [s[0]] + s[1..] == s;
    }
  }

  lemma {:induction false} SplitWhole(s: string, sep: char)
    requires sep !in s
    ensures Split(s, sep) == [s]
  {
    if s != "" {
      SplitWhole(s[1..], sep);
      assert [s[0]] + s[1..] == s;
    }
  }

  lemma {:induction false} CutAt(s: string, sep: char, t: string)
    requires sep !in s
    ensures Cut(s + [sep] + t, sep) == Some((s, t))
  {
    if s == "" {
      assert s + [sep] + t == [sep] + t;
    } else {
      assert (s + [sep] + t)[1..] == s[1..] + [sep] + t;
      CutAt(s[1..], sep, t);
      assert [s[0]] + s[1..] == s;
    }
  }

  lemma {:induction false} CutNone(s: string, sep: char)
    requires sep !in s
    ensures Cut(s, sep).None?
  {
    if s != "" {
      CutNone(s[1..], sep);
    }
  }

  // ---- line endings ----

  /** A line-ending normaliser that reads once, remembering whether it just saw a '\r'. */
  function NormalizeLines(s: string, afterCR: bool): string {
    if s == "" then ""
    else if s[0] == '\r' then "\n" + NormalizeLines(s[1..], true)
    else if s[0] == '\n' && afterCR then NormalizeLines(s[1..], false)
    else [s[0]] + NormalizeLines(s[1..], false)
  }

  /** The two replacements, one after the other, are that single pass. */
  lemma {:induction false} TwoPassesAreOne(s: string)
    ensures ReplaceCR(ReplaceCRLF(s)) == NormalizeLines(s, false)
    ensures s != "" && s[0] != '\n' ==> NormalizeLines(s, true) == NormalizeLines(s, false)
    decreases |s|
  {
    if |s| >= 2 && s[0] == '\r' && s[1] == '\n' {
      TwoPassesAreOne(s[2..]);
      assert s[1..][1..] == s[2..];
      assert ("\n" + ReplaceCRLF(s[2..]))[1..] == ReplaceCRLF(s[2..]);
    } else if s != "" {
      TwoPassesAreOne(s[1..]);
      assert ([s[0]] + ReplaceCRLF(s[1..]))[1..] == ReplaceCRLF(s[1..]);
    }
  }

  lemma {:induction false} ReplaceCRLeavesNone(s: string)
    ensures '\r' !in ReplaceCR(s)
  {
    if s != "" {
      ReplaceCRLeavesNone(s[1..]);
    }
  }

  lemma {:induction false} WithoutCRUnchanged(s: string)
    requires '\r' !in s
    ensures ReplaceCRLF(s) == s && ReplaceCR(s) == s
  {
    if s != "" {
      WithoutCRUnchanged(s[1..]);
      assert [s[0]] + s[1..] == s;
    }
  }
}
