/** Which prefix is completed, and what it means for descending into quoted directories. */
module Suggestion {
  import opened Messages
  import opened JsText
  import opened Autocomplete
  import opened Completion

  // ----- Which prefix is completed

  /** A completed prefix and what is offered for it: files to mention, command names,
      arguments of a command, or paths. */
  datatype Active =
    | Mention(prefix: string)
    | Command(prefix: string)
    | Argument(prefix: string)
    | Path(prefix: string)
  {
    predicate IsFile() {
      Mention? || Path?
    }
  }

  function FirstSpace(text: string): (index: nat)
    requires ' ' in text
    ensures index < |text| && text[index] == ' '
    ensures forall i | 0 <= i < index :: text[i] != ' '
  {
    if text[0] == ' ' then 0 else FirstSpace(text[1..]) + 1
  }

  /** An `@` prefix goes first; then, unless completion is forced, a line that starts with a
      slash is a command, whose arguments are completed if it `offers` any; then a path. */
  function ActivePrefix(text: string, force: bool, offers: string -> bool): Option<Active> {
    var at := ExtractAtPrefix(text);
    if at.Some? then Some(Mention(at.value))
    else if !force && "/" <= text then
      if ' ' !in text then Some(Command(text))
      else
        var space := FirstSpace(text);
        if offers(text[1..space]) then Some(Argument(text[space + 1..])) else None
    else
      var path := ExtractPathPrefix(text, force);
      if path.Some? then Some(Path(path.value)) else None
  }

  /** Whatever prefix is completed ends the text. */
  lemma ActiveEnds(text: string, force: bool, offers: string -> bool)
    ensures var active := ActivePrefix(text, force, offers);
            active.Some? ==> IsSuffix(text, active.value.prefix)
  {
    hide ExtractAtPrefix, ExtractPathPrefix;
    PrefixesAreSuffixes(text, force);
    assert forall i | 0 <= i <= |text| :: |text| - |text[i..]| == i;
    assert text[0..] == text;
  }

  /** Whatever prefix is completed, the cursor stands right behind it, so splicing applies. */
  lemma ActiveStands(lines: seq<string>, cursorLine: nat, cursorCol: nat, force: bool, offers: string -> bool)
    requires cursorCol <= |LineAt(lines, cursorLine)|
    ensures var line := LineAt(lines, cursorLine);
            var active := ActivePrefix(Slice(line, 0, cursorCol), force, offers);
            active.Some? ==>
              var prefix := active.value.prefix;
              && |prefix| <= cursorCol
              && Standing(lines, cursorLine, cursorCol, line[..cursorCol - |prefix|], prefix, line[cursorCol..])
  {
    hide ActivePrefix;
    var line := LineAt(lines, cursorLine);
    var text := Slice(line, 0, cursorCol);
    assert text == line[..cursorCol];
    ActiveEnds(text, force, offers);
    var active := ActivePrefix(text, force, offers);
    if active.Some? {
      var prefix := active.value.prefix;
      assert line == line[..cursorCol - |prefix|] + prefix + line[cursorCol..];
    }
  }

  /** Outside quotes, `word` being the last word before the cursor: it is a mention if it begins
      with `@`; else a line that starts with a slash is a command, or an argument if the
      command offers any, unless completion is forced; else it is a path if completion is
      forced or it looks like one. */
  lemma ActiveExact(text: string, left: string, word: string, force: bool, offers: string -> bool)
    requires LastWord(text, left, word) && ExtractQuotedPrefix(text).None?
    ensures ActivePrefix(text, force, offers) ==
      if word != "" && word[0] == '@' then Some(Mention(word))
      else if !force && text != "" && text[0] == '/' then
        if ' ' !in text then Some(Command(text))
        else
          var space := FirstSpace(text);
          if offers(text[1..space]) then Some(Argument(text[space + 1..])) else None
      else if force || '/' in word || (word != "" && word[0] == '.') ||
              (word == "" && text != "" && text[|text| - 1] == ' ') then Some(Path(word))
      else None
  {
    hide ExtractAtPrefix, ExtractPathPrefix, ExtractQuotedPrefix, LastWord;
    LastWordExact(text, left, word);
    StartsWithOne(text, "/");
  }

  lemma LastDelimiterIs(text: string, index: int)
    requires -1 <= index < |text| && (index >= 0 ==> IsDelimiter(text[index]))
    requires forall i | index < i < |text| :: !IsDelimiter(text[i])
    ensures LastDelimiter(text) == index
  {
  }

  /** The text after the last delimiter begins with `@`. */
  predicate LastWordIsAt(text: string) {
    var start := LastDelimiter(text) + 1;
    start < |text| && text[start] == '@'
  }

  /** Files are offered for this quoted prefix. */
  predicate OffersFilesFor(active: Option<Active>, prefix: string) {
    active.Some? && active.value.IsFile() && active.value.prefix == prefix
  }

  /** In a quoted token files are offered for the quoted prefix exactly if it has an `@` of
      its own, or if its last word, after any delimiter inside the quotes, does not begin
      with one and the line is not taken for a command. */
  lemma QuotedIsActive(left: string, isAt: bool, raw: string, force: bool, offers: string -> bool)
    requires Balanced(left) && '"' !in raw
    ensures OffersFilesFor(ActivePrefix(left + (Opener(isAt) + raw), force, offers), Opener(isAt) + raw) <==>
            isAt || (!LastWordIsAt(raw) && (force || !("/" <= left)))
  {
    var prefix := Opener(isAt) + raw;
    var text := left + prefix;
    hide Balanced, Quotes, UnclosedQuote, ExtractQuotedPrefix, LastDelimiter, ActivePrefix, LastWordIsAt;
    QuotedlyExtracts(text, prefix, isAt, left, raw);
    if isAt {
      AtIsActive(text, prefix, force, offers);
    } else {
      QuoteInside(left, raw);
      SameLastWord(text, |left|, raw);
      WordIsActive(text, prefix, force, offers);
      SlashInFront(left, prefix);
    }
  }

  lemma SlashInFront(left: string, prefix: string)
    requires prefix != "" && prefix[0] != '/'
    ensures "/" <= left + prefix <==> "/" <= left
  {
    if left == "" {
      assert left + prefix == prefix;
    } else {
      assert (left + prefix)[0] == left[0];
    }
  }

  lemma AtIsActive(text: string, prefix: string, force: bool, offers: string -> bool)
    requires ExtractQuotedPrefix(text) == Some(prefix) && "@\"" <= prefix
    ensures ActivePrefix(text, force, offers) == Some(Mention(prefix))
  {
  }

  /** A plain quoted prefix gives way to a last word that begins with `@`, and to commands. */
  lemma WordIsActive(text: string, prefix: string, force: bool, offers: string -> bool)
    requires ExtractQuotedPrefix(text) == Some(prefix) && prefix != "" && prefix[0] == '"'
    ensures OffersFilesFor(ActivePrefix(text, force, offers), prefix) <==>
            !LastWordIsAt(text) && (force || !("/" <= text))
  {
    hide ExtractQuotedPrefix, LastDelimiter, FirstSpace;
    var start := LastDelimiter(text) + 1;
    assert start < |text| ==> text[start..][0] == text[start];
  }

  lemma QuoteInside(left: string, raw: string)
    ensures var text := left + (Opener(false) + raw);
            && (Opener(false) + raw)[0] == '"'
            && |text| == |left| + 1 + |raw| && text[|left|] == '"'
            && (forall i: nat | i < |raw| :: raw[i] == text[|left| + 1 + i])
  {
    var quoted := Opener(false) + raw;
    assert quoted[0] == '"';
    forall i: nat | i < |raw| ensures raw[i] == (left + quoted)[|left| + 1 + i] {
      assert (left + quoted)[|left| + 1 + i] == quoted[1 + i];
    }
  }

  /** The last delimiter of a quoted token is inside the quotes, or the opening quote. */
  lemma SameLastWord(text: string, at: nat, raw: string)
    requires at + 1 + |raw| == |text| && text[at] == '"'
    requires forall i: nat | i < |raw| :: raw[i] == text[at + 1 + i]
    ensures LastWordIsAt(text) <==> LastWordIsAt(raw)
  {
    hide LastDelimiter;
    var index := at + 1 + LastDelimiter(raw);
    forall i | index < i < |text| ensures !IsDelimiter(text[i]) {
      assert text[i] == raw[i - at - 1];
    }
    LastDelimiterIs(text, index);
  }

  /** The word that is completed when the last word begins with `@`. */
  lemma WordMentioned(text: string, quoted: string, index: int, force: bool, offers: string -> bool)
    requires ExtractQuotedPrefix(text) == Some(quoted) && quoted != "" && quoted[0] == '"'
    requires LastDelimiter(text) == index && index + 1 < |text| && text[index + 1] == '@'
    ensures ActivePrefix(text, force, offers) == Some(Mention(text[index + 1..]))
  {
    hide ExtractQuotedPrefix, LastDelimiter;
  }

  /** A last word inside plain quotes that begins with `@`. */
  predicate WordInside(head: string, word: string) {
    && '"' !in head && '"' !in word
    && head != "" && IsDelimiter(head[|head| - 1])
    && word != "" && word[0] == '@' && forall i | 0 <= i < |word| :: !IsDelimiter(word[i])
  }

  /** With a word that begins with `@` inside the quotes, that word is completed. */
  lemma MentionInsideQuotes(head: string, word: string, force: bool, offers: string -> bool)
    requires WordInside(head, word)
    ensures var text := "\"" + head + word;
            && ExtractQuotedPrefix(text) == Some(text)
            && ActivePrefix(text, force, offers) == Some(Mention(word))
  {
    hide *;
    PlainOpener();
    MentionInside("\"", head, word, force, offers);
  }

  lemma MentionInside(opener: string, head: string, word: string, force: bool, offers: string -> bool)
    requires opener == Opener(false) && |opener| == 1 && WordInside(head, word)
    ensures var text := opener + head + word;
            && ExtractQuotedPrefix(text) == Some(text)
            && ActivePrefix(text, force, offers) == Some(Mention(word))
  {
    hide *;
    var text := opener + head + word;
    QuotedWhole(opener, head, word, text);
    WordIsLast(opener, head, word);
    WordMentioned(text, text, |head|, force, offers);
  }

  lemma QuotedWhole(opener: string, head: string, word: string, text: string)
    requires opener == Opener(false) && WordInside(head, word) && text == opener + head + word
    ensures ExtractQuotedPrefix(text) == Some(text) && text != "" && text[0] == '"'
  {
    NothingBalanced();
    WordHasNoQuote(head, word);
    OpenedWhole(opener, head, word, text);
    OpenerIsQuote();
    hide ExtractQuotedPrefix, Balanced, Opener, WordInside, IsDelimiter;
    QuotedlyExtracts(text, text, false, "", head + word);
  }

  lemma WordHasNoQuote(head: string, word: string)
    requires WordInside(head, word)
    ensures '"' !in head + word
  {
  }

  lemma OpenerIsQuote()
    ensures Opener(false) != "" && Opener(false)[0] == '"'
  {
  }

  lemma OpenedWhole(opener: string, head: string, word: string, text: string)
    requires text == opener + head + word
    ensures text == opener + (head + word) && text == "" + text && (opener != "" ==> text[0] == opener[0])
  {
  }

  lemma WordIsLast(opener: string, head: string, word: string)
    requires |opener| == 1 && WordInside(head, word)
    ensures var text := opener + head + word;
            && LastDelimiter(text) == |head| && |head| + 1 < |text|
            && text[|head| + 1] == '@' && text[|head| + 1..] == word
  {
    hide LastDelimiter;
    var text, index := opener + head + word, |head|;
    assert text[index] == head[index - 1] && text[index + 1..] == word;
    forall i | index < i < |text| ensures !IsDelimiter(text[i]) {
      assert text[i] == word[i - index - 1];
    }
    LastDelimiterIs(text, index);
  }

  lemma NothingBalanced()
    ensures Balanced("")
  {
  }

  /** For instance `"my @foo`. */
  lemma MentionExample(force: bool, offers: string -> bool)
    ensures ExtractQuotedPrefix("\"" + "my " + "@foo") == Some("\"" + "my " + "@foo")
    ensures ActivePrefix("\"" + "my " + "@foo", force, offers) == Some(Mention("@foo"))
  {
    hide ExtractQuotedPrefix, ActivePrefix;
    MentionInsideQuotes("my ", "@foo", force, offers);
  }

  lemma PlainOpener()
    ensures Opener(false) == "\"" && |Opener(false)| == 1
  {
  }

  /** A command line with a space: the text after it is completed, if it is an argument. */
  lemma ArgumentCompleted(text: string, quoted: string, space: nat, offers: string -> bool)
    requires ExtractQuotedPrefix(text) == Some(quoted) && quoted != "" && quoted[0] == '"'
    requires !LastWordIsAt(text) && "/" <= text && space < |text| && text[space] == ' ' && space > 0
    requires forall i | 0 <= i < space :: text[i] != ' '
    ensures ActivePrefix(text, false, offers) ==
      if offers(text[1..space]) then Some(Argument(text[space + 1..])) else None
  {
    hide ExtractQuotedPrefix, LastDelimiter, FirstSpace;
    assert FirstSpace(text) == space;
  }

  /** On a command line the argument is completed, not the quoted prefix at its end. */
  lemma ArgumentInsteadOfQuotes(name: string, head: string, raw: string, offers: string -> bool)
    requires '"' !in name && ' ' !in name && '"' !in head && '"' !in raw && !LastWordIsAt(raw)
    requires head != "" && IsDelimiter(head[|head| - 1])
    ensures var text := ("/" + name + " " + head) + ("\"" + raw);
            && ExtractQuotedPrefix(text) == Some("\"" + raw)
            && ActivePrefix(text, false, offers) == if offers(name) then Some(Argument(head + ("\"" + raw))) else None
  {
    hide ExtractQuotedPrefix, LastDelimiter, Balanced, ActivePrefix, Opener, LastWordIsAt;
    var left, prefix := "/" + name + " " + head, "\"" + raw;
    var text, space := left + prefix, 1 + |name|;
    assert Opener(false) == "\"" by { PlainOpener(); }
    CommandBalanced(name, head);
    QuotedlyExtracts(text, prefix, false, left, raw);
    QuoteInside(left, raw);
    SameLastWord(text, |left|, raw);
    CommandLine(name, head, prefix);
    ArgumentCompleted(text, prefix, space, offers);
  }

  lemma CommandBalanced(name: string, head: string)
    requires '"' !in name && '"' !in head && head != "" && IsDelimiter(head[|head| - 1])
    ensures Balanced("/" + name + " " + head)
  {
    var left := "/" + name + " " + head;
    assert left[|left| - 1] == head[|head| - 1];
    NoQuotes(left);
  }

  lemma CommandLine(name: string, head: string, prefix: string)
    requires ' ' !in name
    ensures var text, space := ("/" + name + " " + head) + prefix, 1 + |name|;
            && "/" <= text && space < |text| && text[space] == ' '
            && (forall i | 0 <= i < space :: text[i] != ' ')
            && text[1..space] == name && text[space + 1..] == head + prefix
  {
    var text := ("/" + name + " " + head) + prefix;
    assert text[0] == '/';
    assert forall i | 0 <= i < |name| :: text[i + 1] == name[i];
  }

  /** For instance `/model a "foo`. */
  lemma ArgumentExample(offers: string -> bool)
    ensures var text := ("/" + "model" + " " + "a ") + ("\"" + "foo");
            && ExtractQuotedPrefix(text) == Some("\"" + "foo")
            && ActivePrefix(text, false, offers) ==
                 if offers("model") then Some(Argument("a " + ("\"" + "foo"))) else None
  {
    hide ExtractQuotedPrefix, ActivePrefix, LastWordIsAt;
    FooIsNoMention();
    ArgumentInsteadOfQuotes("model", "a ", "foo", offers);
  }

  lemma FooIsNoMention()
    ensures !LastWordIsAt("foo")
  {
    LastDelimiterIs("foo", -1);
  }

  // ----- Descending into quoted directories

  /** The user accepts the directory `path`, having asked for completion with or without Tab. */
  datatype Descent = Descent(path: string, force: bool)

  /** The name of the last entry of a path, with or without a slash behind it. */
  function EntryName(path: string): string {
    if path == "" then ""
    else if path[|path| - 1] == '/' then LastPart(path[..|path| - 1])
    else LastPart(path)
  }

  function LastPart(path: string): string {
    if path == "" || path[|path| - 1] == '/' then "" else LastPart(path[..|path| - 1]) + [path[|path| - 1]]
  }

  /** The suggestion for a directory is built for the prefix that is completed. */
  function DirectoryItem(path: string, prefix: string): Item {
    var parsed := ParsePathPrefix(prefix);
    Item(BuildCompletionValue(path, parsed.isAt, parsed.isQuoted), EntryName(path) + "/")
  }

  lemma NamedDirectory(path: string, prefix: string)
    ensures DirectoryItem(path, prefix).IsDirectory()
  {
    var name := EntryName(path);
    assert (name + "/")[|name|..] == "/";
  }

  function Descend(edit: Edit, descent: Descent, offers: string -> bool): Edit {
    var active := ActivePrefix(Before(edit), descent.force, offers);
    if active.None? || !active.value.IsFile() then edit
    else
      var prefix := active.value.prefix;
      Apply(edit.lines, edit.cursorLine, edit.cursorCol, DirectoryItem(descent.path, prefix), prefix)
  }

  function DescendAll(edit: Edit, descents: seq<Descent>, offers: string -> bool): Edit
    decreases |descents|
  {
    if descents == [] then edit else DescendAll(Descend(edit, descents[0], offers), descents[1..], offers)
  }

  /** Directories are offered for the quoted prefix before the cursor. */
  predicate OffersQuoted(edit: Edit, force: bool, offers: string -> bool) {
    var quoted := ExtractQuotedPrefix(Before(edit));
    quoted.Some? && OffersFilesFor(ActivePrefix(Before(edit), force, offers), quoted.value)
  }

  predicate AllOfferedQuoted(edit: Edit, descents: seq<Descent>, offers: string -> bool)
    decreases |descents|
  {
    descents == [] ||
    (OffersQuoted(edit, descents[0].force, offers)
     && AllOfferedQuoted(Descend(edit, descents[0], offers), descents[1..], offers))
  }

  /** The directory the cursor is in before the `i`-th descent. */
  function PathBefore(path: string, descents: seq<Descent>, i: nat): string
    requires i <= |descents|
  {
    if i == 0 then path else descents[i - 1].path
  }

  /** One can see from the paths and the start of the line whether all descents stay quoted. */
  predicate StaysQuoted(left: string, isAt: bool, path: string, descents: seq<Descent>) {
    isAt || forall i: nat | i < |descents| ::
              !LastWordIsAt(PathBefore(path, descents, i)) && (descents[i].force || !("/" <= left))
  }

  /** Descending from inside quotes, every directory is offered for the quoted prefix exactly
      if the prefix has an `@` of its own, or no path but the last ends in a word beginning
      with `@` and the line is never taken for a command. Then any number of descents leaves
      one opening and one closing quote, around the last path, and the rest of the line as
      it was. */
  lemma {:induction false} Descents(edit: Edit, left: string, isAt: bool, path: string, right: string,
                                    descents: seq<Descent>, offers: string -> bool)
    requires Standing(edit.lines, edit.cursorLine, edit.cursorCol, left, Opener(isAt) + path, "\"" + right)
    requires Balanced(left) && '"' !in path && forall i | 0 <= i < |descents| :: '"' !in descents[i].path
    ensures AllOfferedQuoted(edit, descents, offers) <==> StaysQuoted(left, isAt, path, descents)
    ensures StaysQuoted(left, isAt, path, descents) ==>
              var end := DescendAll(edit, descents, offers);
              && end.cursorLine == edit.cursorLine
              && Standing(end.lines, end.cursorLine, end.cursorCol, left,
                          Opener(isAt) + PathBefore(path, descents, |descents|), "\"" + right)
              && Quotes(LineAt(end.lines, end.cursorLine)) == Quotes(left) + 2 + Quotes(right)
    decreases |descents|
  {
    hide Quotes, Balanced, Opener, Descend, OffersQuoted, StaysQuoted, PathBefore, Standing, LineAt;
    if descents == [] {
      NothingMoved(edit, left, isAt, path, right);
      NoDescents(left, isAt, path);
    } else {
      var later := descents[1..];
      OfferedNext(edit, left, isAt, path, right, descents[0], offers);
      StaysNext(left, isAt, path, descents);
      if OffersQuoted(edit, descents[0].force, offers) {
        DescendsOnce(edit, left, isAt, path, right, descents[0], offers);
        Descents(Descend(edit, descents[0], offers), left, isAt, descents[0].path, right, later, offers);
      }
    }
  }

  lemma NothingMoved(edit: Edit, left: string, isAt: bool, path: string, right: string)
    requires Standing(edit.lines, edit.cursorLine, edit.cursorCol, left, Opener(isAt) + path, "\"" + right)
    requires '"' !in path
    ensures Quotes(LineAt(edit.lines, edit.cursorLine)) == Quotes(left) + 2 + Quotes(right)
  {
    hide Quotes, Opener, LineAt;
    QuotesAround(left, isAt, path, right);
  }

  lemma NoDescents(left: string, isAt: bool, path: string)
    ensures StaysQuoted(left, isAt, path, []) && PathBefore(path, [], 0) == path
  {
  }

  lemma StaysNext(left: string, isAt: bool, path: string, descents: seq<Descent>)
    requires descents != []
    ensures StaysQuoted(left, isAt, path, descents) <==>
            (isAt || (!LastWordIsAt(path) && (descents[0].force || !("/" <= left)))) &&
            StaysQuoted(left, isAt, descents[0].path, descents[1..])
    ensures PathBefore(descents[0].path, descents[1..], |descents| - 1) == PathBefore(path, descents, |descents|)
  {
    hide LastWordIsAt;
    var later := descents[1..];
    forall i: nat | i < |later| ensures PathBefore(descents[0].path, later, i) == PathBefore(path, descents, i + 1) {
    }
    if !isAt && StaysQuoted(left, isAt, path, descents) {
      assert PathBefore(path, descents, 0) == path;
      forall i: nat | i < |later|
        ensures !LastWordIsAt(PathBefore(descents[0].path, later, i)) && (later[i].force || !("/" <= left))
      {
        assert !LastWordIsAt(PathBefore(path, descents, i + 1));
      }
    }
    if !isAt && !LastWordIsAt(path) && (descents[0].force || !("/" <= left))
      && StaysQuoted(left, isAt, descents[0].path, later) {
      forall i: nat | i < |descents|
        ensures !LastWordIsAt(PathBefore(path, descents, i)) && (descents[i].force || !("/" <= left))
      {
        if i > 0 {
          assert !LastWordIsAt(PathBefore(descents[0].path, later, i - 1)) && later[i - 1] == descents[i];
        }
      }
    }
  }

  lemma OfferedNext(edit: Edit, left: string, isAt: bool, path: string, right: string, descent: Descent,
                    offers: string -> bool)
    requires Standing(edit.lines, edit.cursorLine, edit.cursorCol, left, Opener(isAt) + path, "\"" + right)
    requires Balanced(left) && '"' !in path
    ensures OffersQuoted(edit, descent.force, offers) <==>
            isAt || (!LastWordIsAt(path) && (descent.force || !("/" <= left)))
  {
    hide Standing, Balanced, Opener, Before, ExtractQuotedPrefix, ActivePrefix, LastWordIsAt, OffersFilesFor;
    var prefix := Opener(isAt) + path;
    StandingSplits(edit, left, prefix, "\"" + right);
    QuotedlyExtracts(left + prefix, prefix, isAt, left, path);
    QuotedIsActive(left, isAt, path, descent.force, offers);
  }

  lemma DescendsOnce(edit: Edit, left: string, isAt: bool, path: string, right: string, descent: Descent,
                     offers: string -> bool)
    requires Standing(edit.lines, edit.cursorLine, edit.cursorCol, left, Opener(isAt) + path, "\"" + right)
    requires Balanced(left) && '"' !in path && '"' !in descent.path && OffersQuoted(edit, descent.force, offers)
    ensures var next := Descend(edit, descent, offers);
            && next.cursorLine == edit.cursorLine
            && Standing(next.lines, next.cursorLine, next.cursorCol, left, Opener(isAt) + descent.path, "\"" + right)
  {
    hide Standing, Balanced, BuildCompletionValue, Apply, Opener, Before, ExtractQuotedPrefix, ParsePathPrefix,
      ActivePrefix;
    var prefix := Opener(isAt) + path;
    var item := DirectoryItem(descent.path, prefix);
    NamedDirectory(descent.path, prefix);
    StandingSplits(edit, left, prefix, "\"" + right);
    QuotedlyExtracts(left + prefix, prefix, isAt, left, path);
    OpenerParses(isAt, path);
    QuotedValue(descent.path, isAt, true);
    QuotedValue(path, isAt, true);
    DirectoryAccepted(edit.lines, edit.cursorLine, edit.cursorCol, item, left, prefix, "\"" + right,
                      descent.path, isAt, true);
    ClosingQuoteReplaced(item, isAt, path, right);
    assert Descend(edit, descent, offers) == Apply(edit.lines, edit.cursorLine, edit.cursorCol, item, prefix);
  }

  /** A descent that leaves the quotes: a word beginning with `@` inside them is completed
      by itself, and accepting a directory whose name needs quotes leaves four of them. */
  lemma FourQuotes(head: string, word: string, path: string, force: bool, offers: string -> bool)
    requires WordInside(head, word) && '"' !in path && ' ' in path
    ensures var edit := Edit(["\"" + head + word + "\""], 0, 1 + |head| + |word|);
            var next := Descend(edit, Descent(path, force), offers);
            && ExtractQuotedPrefix(Before(edit)) == Some("\"" + head + word)
            && !OffersQuoted(edit, force, offers)
            && LineAt(next.lines, 0) == "\"" + head + ("@\"" + path + "\"") + "\""
            && Quotes(LineAt(next.lines, 0)) == 4
  {
    hide ExtractQuotedPrefix, ActivePrefix, Apply, Slice, SetLine, Inserted, Remainder, Quotes, Before,
      BuildCompletionValue, ParsePathPrefix, WordInside;
    var edit := Edit(["\"" + head + word + "\""], 0, 1 + |head| + |word|);
    var left, right := "\"" + head, "\"";
    StandingSplits(edit, left, word, right);
    MentionInsideQuotes(head, word, force, offers);
    WordShorter(head, word);
    var item := DirectoryItem(path, word);
    WordItem(word, path);
    ApplyIs(edit.lines, 0, edit.cursorCol, item, left, word, right);
    WordReplaced(item, word, left, right);
    QuotesOfLine(head, path);
  }

  lemma WordShorter(head: string, word: string)
    requires WordInside(head, word)
    ensures word != "\"" + head + word && word != "" && word[0] == '@' && (|word| > 1 ==> word[1] != '"')
    ensures '"' !in head
  {
    assert |word| < |"\"" + head + word|;
    assert |word| > 1 ==> word[1] in word;
  }

  lemma WordItem(word: string, path: string)
    requires word != "" && word[0] == '@' && (|word| > 1 ==> word[1] != '"') && ' ' in path
    ensures DirectoryItem(path, word).value == "@\"" + path + "\""
    ensures DirectoryItem(path, word).IsDirectory()
  {
    NamedDirectory(path, word);
    assert "@" + "\"" == "@\"";
  }

  lemma WordReplaced(item: Item, word: string, left: string, right: string)
    requires word != "" && word[0] == '@' && (|word| > 1 ==> word[1] != '"') && item.IsDirectory()
    ensures Inserted(item, word, left) == item.value && Remainder(item, word, right) == right
  {
  }

  lemma QuotesOfLine(head: string, path: string)
    requires '"' !in head && '"' !in path
    ensures Quotes("\"" + head + ("@\"" + path + "\"") + "\"") == 4
  {
    hide Quotes;
    NoQuotes(head);
    NoQuotes(path);
    PlainOpener();
    OpenerHasOne(false);
    OpenerHasOne(true);
    QuotesAppend("\"", head);
    QuotesAppend("@\"", path);
    QuotesAppend("@\"" + path, "\"");
    QuotesAppend("\"" + head, "@\"" + path + "\"");
    QuotesAppend("\"" + head + ("@\"" + path + "\""), "\"");
  }

  /** For instance accepting `docs/a b/` in `"my @docs/"`. */
  lemma FourQuotesExample(force: bool, offers: string -> bool)
    ensures var edit := Edit(["\"" + "my " + "@docs/" + "\""], 0, 10);
            var next := Descend(edit, Descent("docs/a b/", force), offers);
            && !OffersQuoted(edit, force, offers)
            && LineAt(next.lines, 0) == "\"" + "my " + ("@\"" + "docs/a b/" + "\"") + "\""
            && Quotes(LineAt(next.lines, 0)) == 4
  {
    hide OffersQuoted, Descend, Quotes, LineAt;
    assert "docs/a b/"[6] == ' ';
    FourQuotes("my ", "@docs/", "docs/a b/", force, offers);
  }

  // ----- A path that is taken for a command

  /** After blanks at the start of a line, a slash and letters are completed as a path. */
  lemma BlankPathActive(left: string, name: string, offers: string -> bool)
    requires left != "" && left[0] != '/' && '"' !in left && IsDelimiter(left[|left| - 1])
    requires '"' !in name && forall i | 0 <= i < |name| :: !IsDelimiter(name[i])
    ensures ActivePrefix(left + ("/" + name), false, offers) == Some(Path("/" + name))
  {
    var text, word := left + ("/" + name), "/" + name;
    assert word[0] == '/' && forall i | 0 <= i < |word| :: !IsDelimiter(word[i]);
    assert '"' !in text;
    NoQuotes(text);
    forall i | |left| <= i < |text| ensures !IsDelimiter(text[i]) {
      assert text[i] == word[i - |left|];
    }
    assert text[|left| - 1] == left[|left| - 1] && text[|left|..] == word && text[|left|] == '/' && text[0] == left[0];
    LastDelimiterIs(text, |left| - 1);
    hide LastDelimiter, Quotes, IsDelimiter;
  }

  lemma StandsAlone(left: string, prefix: string)
    ensures Standing([left + prefix], 0, |left| + |prefix|, left, prefix, "")
  {
    assert left + prefix + "" == left + prefix;
  }

  lemma PlainItem(name: string, path: string)
    requires '"' !in path && ' ' in path
    ensures var item := DirectoryItem(path, "/" + name);
            && Offers(item, path, false, false) && item.IsDirectory()
            && item.value == "\"" + path + "\""
  {
    assert ("/" + name)[0] == '/';
    NamedDirectory(path, "/" + name);
    assert "" + "\"" == "\"";
  }

  lemma TakenForCommand(left: string, name: string)
    requires Trim(left) == "" && '/' !in name
    ensures IsSlashCommand("/" + name, left)
  {
    assert ("/" + name)[1..] == name;
  }

  lemma CommandSpliced(item: Item, left: string, prefix: string)
    requires IsSlashCommand(prefix, left)
    ensures Inserted(item, prefix, left) == "/" + item.value + " "
    ensures Offset(item, prefix, left) == |Inserted(item, prefix, left)|
    ensures Remainder(item, prefix, "") == ""
  {
  }

  /** Accepting a directory whose name needs quotes for such a path: it is spliced in as if it
      were a command, and the cursor ends up behind the quotes. */
  lemma BlankPathAccepted(left: string, name: string, path: string)
    requires Balanced(left) && Trim(left) == "" && '/' !in name && '"' !in path && ' ' in path
    ensures var prefix := "/" + name;
            var edit := Apply([left + prefix], 0, |left| + |prefix|, DirectoryItem(path, prefix), prefix);
            && LineAt(edit.lines, 0) == left + ("/" + ("\"" + path + "\"") + " ")
            && edit.cursorCol == |LineAt(edit.lines, 0)|
            && ExtractQuotedPrefix(Before(edit)) == None
  {
    hide *;
    var prefix := "/" + name;
    var item := DirectoryItem(path, prefix);
    StandsAlone(left, prefix);
    PlainItem(name, path);
    TakenForCommand(left, name);
    ApplyIs([left + prefix], 0, |left| + |prefix|, item, left, prefix, "");
    DirectoryAccepted([left + prefix], 0, |left| + |prefix|, item, left, prefix, "", path, false, false);
    BehindCloses(Apply([left + prefix], 0, |left| + |prefix|, item, prefix), item, left, prefix, "");
    CommandSpliced(item, left, prefix);
    LineSet(left + prefix, left + ("/" + item.value + " ") + "");
    SameText(left, item.value, "\"" + path + "\"");
  }

  lemma BehindCloses(edit: Edit, item: Item, left: string, prefix: string, right: string)
    requires Behind(edit, item, left, prefix, right)
    ensures ExtractQuotedPrefix(Before(edit)) == None
  {
  }

  lemma LineSet(line: string, text: string)
    ensures LineAt(SetLine([line], 0, text), 0) == text
  {
  }

  lemma SameText(left: string, value: string, quoted: string)
    requires value == quoted
    ensures left + ("/" + value + " ") + "" == left + ("/" + quoted + " ")
  {
  }

  /** For instance accepting `my dir/` for the path `/m` behind a blank. */
  lemma BlankPathExample(offers: string -> bool)
    ensures ActivePrefix(" " + ("/" + "m"), false, offers) == Some(Path("/" + "m"))
    ensures var edit := Apply([" " + ("/" + "m")], 0, 3, DirectoryItem("/my dir/", "/" + "m"), "/" + "m");
            && LineAt(edit.lines, 0) == " " + ("/" + ("\"" + "/my dir/" + "\"") + " ")
            && edit.cursorCol == |LineAt(edit.lines, 0)|
            && ExtractQuotedPrefix(Before(edit)) == None
  {
    hide ActivePrefix, Apply, DirectoryItem, ExtractQuotedPrefix, Before, LineAt;
    OneBlank();
    assert '"' !in " " && '"' !in "m";
    BlankPathActive(" ", "m", offers);
    assert "/my dir/"[3] == ' ';
    BlankPathAccepted(" ", "m", "/my dir/");
  }

  lemma OneBlank()
    ensures Trim(" ") == "" && Balanced(" ")
  {
    assert " "[..0] == "" && " "[1..] == "";
    NoQuotes(" ");
  }
}
