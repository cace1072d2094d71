/** Finding the path before the cursor, quoted or not, and splicing a completion over it. */
module Autocomplete {
  import opened Messages
  import opened JsText

  // ----- Delimiters and quotes

  predicate IsDelimiter(c: char) {
    c == ' ' || c == '\t' || c == '"' || c == '\'' || c == '='
  }

  function LastDelimiter(text: string): (index: int)
    ensures -1 <= index < |text|
    ensures index >= 0 ==> IsDelimiter(text[index])
    ensures forall i | index < i < |text| :: !IsDelimiter(text[i])
  {
    if text == "" then -1
    else if IsDelimiter(text[|text| - 1]) then |text| - 1
    else LastDelimiter(text[..|text| - 1])
  }

  function Quotes(text: string): nat {
    if text == "" then 0
    else Quotes(text[..|text| - 1]) + if text[|text| - 1] == '"' then 1 else 0
  }

  /** An odd number of quotes leaves the last one open. */
  function UnclosedQuote(text: string): Option<nat> {
    if Quotes(text) % 2 == 1 then Some(LastQuote(text)) else None
  }

  function LastQuote(text: string): (index: nat)
    requires Quotes(text) > 0
    ensures index < |text| && text[index] == '"'
    ensures forall i | index < i < |text| :: text[i] != '"'
  {
    if text[|text| - 1] == '"' then |text| - 1 else LastQuote(text[..|text| - 1])
  }

  method FindLastDelimiter(text: string) returns (index: int)
    ensures index == LastDelimiter(text)
  {
    index := |text| - 1;
    while index >= 0
      invariant -1 <= index < |text|
      invariant LastDelimiter(text) == LastDelimiter(text[..index + 1])
    {
      assert text[..index + 1][..index] == text[..index];
      if IsDelimiter(text[index]) {
        return;
      }
      index := index - 1;
    }
  }

  method FindUnclosedQuoteStart(text: string) returns (start: Option<nat>)
    ensures start == UnclosedQuote(text)
  {
    var inQuotes := false;
    var quoteStart := -1;
    for i := 0 to |text|
      invariant inQuotes <==> Quotes(text[..i]) % 2 == 1
      invariant inQuotes ==> quoteStart == LastQuote(text[..i])
    {
      assert text[..i + 1][..i] == text[..i];
      if text[i] == '"' {
        inQuotes := !inQuotes;
        if inQuotes {
          quoteStart := i;
        }
      }
    }
    assert text[..|text|] == text;
    start := if inQuotes then Some(quoteStart) else None;
  }

  lemma {:induction false} QuotesAppend(a: string, b: string)
    ensures Quotes(a + b) == Quotes(a) + Quotes(b)
    decreases |b|
  {
    if b == "" {
      assert a + b == a;
    } else {
      assert (a + b)[..|a + b| - 1] == a + b[..|b| - 1];
      QuotesAppend(a, b[..|b| - 1]);
    }
  }

  lemma {:induction false} NoQuotes(text: string)
    ensures Quotes(text) == 0 <==> '"' !in text
  {
    if text != "" {
      NoQuotes(text[..|text| - 1]);
      assert text == text[..|text| - 1] + [text[|text| - 1]];
    }
  }

  // ----- Prefixes

  predicate IsTokenStart(text: string, index: nat)
    requires index <= |text|
  {
    index == 0 || IsDelimiter(text[index - 1])
  }

  function ExtractQuotedPrefix(text: string): Option<string> {
    match UnclosedQuote(text)
    case None => None
    case Some(start) =>
      if start > 0 && text[start - 1] == '@' then
        if IsTokenStart(text, start - 1) then Some(text[start - 1..]) else None
      else if IsTokenStart(text, start) then Some(text[start..])
      else None
  }

  datatype PathPrefix = PathPrefix(raw: string, isAt: bool, isQuoted: bool)

  function ParsePathPrefix(prefix: string): PathPrefix {
    if "@\"" <= prefix then PathPrefix(prefix[2..], true, true)
    else if "\"" <= prefix then PathPrefix(prefix[1..], false, true)
    else if "@" <= prefix then PathPrefix(prefix[1..], true, false)
    else PathPrefix(prefix, false, false)
  }

  function BuildCompletionValue(path: string, isAt: bool, isQuoted: bool): string {
    var prefix := if isAt then "@" else "";
    if isQuoted || Includes(path, ' ') then prefix + "\"" + path + "\"" else prefix + path
  }

  function ExtractAtPrefix(text: string): Option<string> {
    var quoted := ExtractQuotedPrefix(text);
    if quoted.Some? && "@\"" <= quoted.value then quoted
    else
      var start := LastDelimiter(text) + 1;
      if start < |text| && text[start] == '@' then Some(text[start..]) else None
  }

  function ExtractPathPrefix(text: string, force: bool): Option<string> {
    var quoted := ExtractQuotedPrefix(text);
    if quoted.Some? then quoted
    else
      var path := text[LastDelimiter(text) + 1..];
      if force then Some(path)
      else if Includes(path, '/') || "." <= path || "~/" <= path then Some(path)
      else if path == "" && EndsWith(text, " ") then Some(path)
      else None
  }

  /** `word` is what follows the last delimiter. */
  predicate LastWord(text: string, left: string, word: string) {
    && text == left + word
    && (left == "" || IsDelimiter(left[|left| - 1]))
    && forall i | 0 <= i < |word| :: !IsDelimiter(word[i])
  }

  lemma LastWordFound(text: string, left: string, word: string)
    requires LastWord(text, left, word)
    ensures LastDelimiter(text) == |left| - 1
  {
    forall i | |left| <= i < |text| ensures !IsDelimiter(text[i]) {
      assert text[i] == word[i - |left|];
    }
    if left != "" {
      assert text[|left| - 1] == left[|left| - 1];
    }
  }

  /** Outside quotes the prefix is the last word: always when completion is forced, else if it
      looks like a path, or is empty behind a space; it is a mention if it begins with `@`. */
  lemma LastWordExact(text: string, left: string, word: string)
    requires LastWord(text, left, word) && ExtractQuotedPrefix(text).None?
    ensures ExtractPathPrefix(text, true) == Some(word)
    ensures ExtractPathPrefix(text, false) ==
      if '/' in word || (word != "" && word[0] == '.') || (word == "" && text != "" && text[|text| - 1] == ' ')
      then Some(word) else None
    ensures ExtractAtPrefix(text) == if word != "" && word[0] == '@' then Some(word) else None
  {
    LastWordFound(text, left, word);
    assert text[|left|..] == word;
    assert word != "" ==> text[|left|] == word[0];
    StartsWithOne(word, ".");
    StartsWithTwo(word, "~/");
    EndsWithOne(text, " ");
    hide EndsWith;
    hide ExtractQuotedPrefix, LastDelimiter, IsDelimiter;
  }

  predicate IsSuffix(text: string, prefix: string) {
    EndsWith(text, prefix)
  }

  /** `open` is how a quoted prefix begins. */
  function Opener(isAt: bool): (quote: string)
    ensures |quote| > 0
  {
    if isAt then "@\"" else "\""
  }

  /** Nothing is open to the left, and a new token may begin. */
  predicate Balanced(left: string) {
    Quotes(left) % 2 == 0 && IsTokenStart(left, |left|)
  }

  lemma LastQuoteIs(text: string, index: nat)
    requires Quotes(text) > 0 && index < |text| && text[index] == '"'
    requires forall i | index < i < |text| :: text[i] != '"'
    ensures LastQuote(text) == index
  {
  }

  lemma OpenerSpot(left: string, isAt: bool, raw: string)
    requires '"' !in raw
    ensures var (text, index) := (left + Opener(isAt) + raw, |left| + |Opener(isAt)| - 1);
            text[index] == '"' && forall i | index < i < |text| :: text[i] != '"'
  {
    var index := |left| + |Opener(isAt)| - 1;
    forall i | index < i < |left + Opener(isAt) + raw| ensures (left + Opener(isAt) + raw)[i] != '"' {
      assert (left + Opener(isAt) + raw)[i] == raw[i - index - 1];
    }
  }

  lemma LastQuoteOf(left: string, isAt: bool, raw: string)
    requires '"' !in raw && Quotes(left) % 2 == 0
    ensures UnclosedQuote(left + Opener(isAt) + raw) == Some(|left| + |Opener(isAt)| - 1)
  {
    hide Quotes, LastQuote, Opener;
    QuotesOfParts(left, isAt, raw);
    OpenerSpot(left, isAt, raw);
    LastQuoteIs(left + Opener(isAt) + raw, |left| + |Opener(isAt)| - 1);
  }

  lemma OpenerHasOne(isAt: bool)
    ensures Quotes(Opener(isAt)) == 1
  {
    assert "\""[..0] == "" && "@\""[..1] == "@" && "@"[..0] == "";
  }

  /** A quoted prefix is found exactly where an opening quote, with or without `@`, starts a
      token outside quotes and is not closed again: the prefix is all of the text from there. */
  lemma QuotedPrefixExact(text: string, prefix: string)
    ensures ExtractQuotedPrefix(text) == Some(prefix) <==>
            exists isAt, left, raw :: Quotedly(text, prefix, isAt, left, raw)
  {
    hide ExtractQuotedPrefix, Quotedly;
    if ExtractQuotedPrefix(text) == Some(prefix) {
      var isAt, left, raw := ExtractsQuotedly(text, prefix);
    }
    if exists isAt, left, raw :: Quotedly(text, prefix, isAt, left, raw) {
      var isAt, left, raw :| Quotedly(text, prefix, isAt, left, raw);
      QuotedlyExtracts(text, prefix, isAt, left, raw);
    }
  }

  lemma ExtractsQuotedly(text: string, prefix: string) returns (isAt: bool, left: string, raw: string)
    requires ExtractQuotedPrefix(text) == Some(prefix)
    ensures Quotedly(text, prefix, isAt, left, raw)
  {
    var start := UnclosedQuote(text).value;
    isAt := start > 0 && text[start - 1] == '@';
    left, raw := text[..if isAt then start - 1 else start], text[start + 1..];
    UnclosedSplits(text, left, isAt, raw);
    assert text[|left|..] == prefix == Opener(isAt) + raw;
  }

  ghost predicate Quotedly(text: string, prefix: string, isAt: bool, left: string, raw: string) {
    text == left + prefix && prefix == Opener(isAt) + raw && '"' !in raw && Balanced(left)
  }

  lemma UnclosedSplits(text: string, left: string, isAt: bool, raw: string)
    requires UnclosedQuote(text).Some?
    requires var start := UnclosedQuote(text).value;
             && isAt == (start > 0 && text[start - 1] == '@')
             && left == text[..if isAt then start - 1 else start] && raw == text[start + 1..]
    ensures text == left + Opener(isAt) + raw && '"' !in raw && Quotes(left) % 2 == 0
  {
    hide Quotes, LastQuote;
    var start := UnclosedQuote(text).value;
    assert text == text[..start] + "\"" + raw;
    assert isAt ==> text[..start] == left + "@";
    assert text == left + Opener(isAt) + raw;
    QuotesOfParts(left, isAt, raw);
  }

  lemma QuotesOfParts(left: string, isAt: bool, raw: string)
    requires '"' !in raw
    ensures Quotes(left + Opener(isAt) + raw) == Quotes(left) + 1
  {
    hide Quotes, Opener;
    NoQuotes(raw);
    OpenerHasOne(isAt);
    QuotesAppend(left, Opener(isAt));
    QuotesAppend(left + Opener(isAt), raw);
  }

  lemma QuotedlyExtracts(text: string, prefix: string, isAt: bool, left: string, raw: string)
    requires Quotedly(text, prefix, isAt, left, raw)
    ensures ExtractQuotedPrefix(text) == Some(prefix)
  {
    assert text == left + Opener(isAt) + raw;
    LastQuoteOf(left, isAt, raw);
    assert left != "" ==> text[|left| - 1] == left[|left| - 1];
    assert text[|left|..] == prefix;
  }

  /** Every prefix the extractors return ends the text. */
  lemma PrefixesAreSuffixes(text: string, force: bool)
    ensures ExtractQuotedPrefix(text).Some? ==> IsSuffix(text, ExtractQuotedPrefix(text).value)
    ensures ExtractAtPrefix(text).Some? ==>
      IsSuffix(text, ExtractAtPrefix(text).value) && "@" <= ExtractAtPrefix(text).value
    ensures ExtractPathPrefix(text, force).Some? ==> IsSuffix(text, ExtractPathPrefix(text, force).value)
  {
    assert forall i | 0 <= i <= |text| :: |text| - |text[i..]| == i;
    assert ExtractAtPrefix(text).Some? ==> ExtractAtPrefix(text).value[0] == '@';
  }

  /** Parsing undoes building: the value without its closing quote parses to the path and
      the flags it was built from, exactly unless an unquoted path begins like a marker. */
  lemma BuildParses(path: string, isAt: bool, isQuoted: bool)
    ensures var value := BuildCompletionValue(path, isAt, isQuoted);
            var quoted := isQuoted || ' ' in path;
            ParsePathPrefix(if quoted then value[..|value| - 1] else value) == PathPrefix(path, isAt, quoted) <==>
              quoted || (!("\"" <= path) && (isAt || !("@" <= path)))
  {
    var value := BuildCompletionValue(path, isAt, isQuoted);
    if isQuoted || ' ' in path {
      QuotedValue(path, isAt, isQuoted);
    } else if isAt {
      assert value == "@" + path && value[1..] == path && value[0] == '@';
      assert path != "" ==> value[1] == path[0];
      assert "\"" <= path <==> path != "" && path[0] == '"';
      assert "@\"" <= value <==> path != "" && path[0] == '"';
    } else {
      assert value == path;
    }
  }

  /** For instance the plain path `@x`, which reads as a mention of `x`. */
  lemma PlainPathMisread()
    ensures ParsePathPrefix(BuildCompletionValue("@x", false, false)) == PathPrefix("x", true, false)
  {
    var path := "@x";
    assert path[0] == '@' && path[1] == 'x' && path[1..] == "x";
    assert BuildCompletionValue(path, false, false) == "" + path == path;
  }

  lemma QuotedValue(path: string, isAt: bool, isQuoted: bool)
    requires isQuoted || ' ' in path
    ensures var value := BuildCompletionValue(path, isAt, isQuoted);
            && value == Opener(isAt) + path + "\"" && value[..|value| - 1] == Opener(isAt) + path
    ensures ParsePathPrefix(Opener(isAt) + path) == PathPrefix(path, isAt, true)
  {
    var value, start := BuildCompletionValue(path, isAt, isQuoted), Opener(isAt) + path;
    assert value == start + "\"";
    assert start[|Opener(isAt)|..] == path && start[0] == Opener(isAt)[0];
  }
}
