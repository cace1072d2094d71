/** Accepting a completion: what it does to the line, and to the quotes around the cursor. */
module Completion {
  import opened Messages
  import opened JsText
  import opened Autocomplete

  datatype Item = Item(value: string, title: string) {
    predicate IsDirectory() {
      EndsWith(title, "/")
    }

    predicate IsQuoted() {
      EndsWith(value, "\"")
    }
  }

  datatype Edit = Edit(lines: seq<string>, cursorLine: nat, cursorCol: nat)

  /** `lines[n] || ""`. */
  function LineAt(lines: seq<string>, n: nat): string {
    if n < |lines| then lines[n] else ""
  }

  /** `lines[n] = text` on a copy; lines it leaves out read as empty. */
  function SetLine(lines: seq<string>, n: nat, text: string): (result: seq<string>)
    ensures |result| == if n < |lines| then |lines| else n + 1
    ensures forall i: nat :: LineAt(result, i) == if i == n then text else LineAt(lines, i)
  {
    if n < |lines| then lines[n := text] else lines + seq(n - |lines|, _ => "") + [text]
  }

  predicate IsQuotedPrefix(prefix: string) {
    "\"" <= prefix || "@\"" <= prefix
  }

  predicate IsSlashCommand(prefix: string, before: string) {
    "/" <= prefix && Trim(before) == "" && !Includes(prefix[1..], '/')
  }

  /** What stays to the right of the completion: the text after the cursor, less the closing
      quote that the completion brings itself. */
  function Remainder(item: Item, prefix: string, after: string): string {
    if IsQuotedPrefix(prefix) && item.IsQuoted() && "\"" <= after then after[1..] else after
  }

  /** What replaces the prefix. */
  function Inserted(item: Item, prefix: string, before: string): string {
    if IsSlashCommand(prefix, before) then "/" + item.value + " "
    else if "@" <= prefix && !item.IsDirectory() then item.value + " "
    else item.value
  }

  /** Where in it the cursor ends up: inside the quotes of a directory, else at the end. */
  function Offset(item: Item, prefix: string, before: string): (offset: nat)
    ensures offset <= |Inserted(item, prefix, before)|
  {
    var length := |Inserted(item, prefix, before)|;
    if !IsSlashCommand(prefix, before) && item.IsDirectory() && item.IsQuoted() then length - 1 else length
  }

  function Apply(lines: seq<string>, cursorLine: nat, cursorCol: nat, item: Item, prefix: string): Edit {
    var line := LineAt(lines, cursorLine);
    var before, after := Slice(line, 0, cursorCol - |prefix|), Slice(line, cursorCol, |line|);
    Edit(SetLine(lines, cursorLine, before + Inserted(item, prefix, before) + Remainder(item, prefix, after)),
         cursorLine,
         |before| + Offset(item, prefix, before))
  }

  method ApplyCompletion(lines: seq<string>, cursorLine: nat, cursorCol: nat, item: Item, prefix: string)
    returns (edit: Edit)
    ensures edit == Apply(lines, cursorLine, cursorCol, item, prefix)
  {
    hide SetLine, Slice, Trim;
    var currentLine := LineAt(lines, cursorLine);
    var beforePrefix := Slice(currentLine, 0, cursorCol - |prefix|);
    var afterCursor := Slice(currentLine, cursorCol, |currentLine|);
    var isQuotedPrefix := "\"" <= prefix || "@\"" <= prefix;
    var hasTrailingQuoteInItem := EndsWith(item.value, "\"");
    var adjustedAfterCursor := afterCursor;
    if isQuotedPrefix && hasTrailingQuoteInItem && "\"" <= afterCursor {
      adjustedAfterCursor := afterCursor[1..];
    }
    if "/" <= prefix && Trim(beforePrefix) == "" && !Includes(prefix[1..], '/') {
      var newLine := beforePrefix + ("/" + item.value + " ") + adjustedAfterCursor;
      return Edit(SetLine(lines, cursorLine, newLine), cursorLine, |beforePrefix| + |item.value| + 2);
    }
    var isDirectory := EndsWith(item.title, "/");
    var cursorOffset := if isDirectory && hasTrailingQuoteInItem then |item.value| - 1 else |item.value|;
    if "@" <= prefix {
      var suffix := if isDirectory then "" else " ";
      assert Inserted(item, prefix, beforePrefix) == item.value + suffix;
      var newLine := beforePrefix + (item.value + suffix) + adjustedAfterCursor;
      return Edit(SetLine(lines, cursorLine, newLine), cursorLine, |beforePrefix| + cursorOffset + |suffix|);
    }
    var textBeforeCursor := Slice(currentLine, 0, cursorCol);
    if Includes(textBeforeCursor, '/') && Includes(textBeforeCursor, ' ') {
      var newLine := beforePrefix + item.value + adjustedAfterCursor;
      return Edit(SetLine(lines, cursorLine, newLine), cursorLine, |beforePrefix| + cursorOffset);
    }
    var newLine := beforePrefix + item.value + adjustedAfterCursor;
    return Edit(SetLine(lines, cursorLine, newLine), cursorLine, |beforePrefix| + cursorOffset);
  }

  // ----- Splicing

  /** The cursor stands between `left + prefix` and `right`. */
  predicate Standing(lines: seq<string>, cursorLine: nat, cursorCol: nat, left: string, prefix: string, right: string) {
    LineAt(lines, cursorLine) == left + prefix + right && cursorCol == |left| + |prefix|
  }

  lemma SlicesAre(left: string, prefix: string, right: string)
    ensures var line := left + prefix + right;
            && Slice(line, 0, |left|) == left
            && Slice(line, 0, |left| + |prefix|) == left + prefix
            && Slice(line, |left| + |prefix|, |line|) == right
  {
  }

  lemma ApplyIs(lines: seq<string>, cursorLine: nat, cursorCol: nat, item: Item, left: string, prefix: string,
                right: string)
    requires Standing(lines, cursorLine, cursorCol, left, prefix, right)
    ensures Apply(lines, cursorLine, cursorCol, item, prefix) ==
            Edit(SetLine(lines, cursorLine, left + Inserted(item, prefix, left) + Remainder(item, prefix, right)),
                 cursorLine, |left| + Offset(item, prefix, left))
  {
    hide Slice, SetLine, Inserted, Remainder, Offset;
    SlicesAre(left, prefix, right);
  }

  lemma CutInserted(left: string, inserted: string, kept: string, offset: nat)
    requires offset <= |inserted|
    ensures left + inserted + kept == left + inserted[..offset] + (inserted[offset..] + kept)
  {
    assert inserted == inserted[..offset] + inserted[offset..];
  }

  /** On all four branches: the other lines stay; the line keeps its left part and its right
      part, less at most one leading quote; and the cursor ends up right of the left part,
      inside what was inserted or at its end. */
  lemma SpliceCorrect(lines: seq<string>, cursorLine: nat, cursorCol: nat, item: Item,
                      left: string, prefix: string, right: string)
    requires Standing(lines, cursorLine, cursorCol, left, prefix, right)
    ensures var edit := Apply(lines, cursorLine, cursorCol, item, prefix);
            var inserted, kept := Inserted(item, prefix, left), Remainder(item, prefix, right);
            && edit.cursorLine == cursorLine
            && (forall i: nat | i != cursorLine :: LineAt(edit.lines, i) == LineAt(lines, i))
            && (kept == right || right == "\"" + kept)
            && item.value <= (if IsSlashCommand(prefix, left) then inserted[1..] else inserted)
            && |left| <= edit.cursorCol <= |left| + |inserted|
            && Standing(edit.lines, cursorLine, edit.cursorCol, left,
                        inserted[..edit.cursorCol - |left|], inserted[edit.cursorCol - |left|..] + kept)
  {
    hide Apply, SetLine, Slice, Inserted, Offset, IsSlashCommand, IsQuotedPrefix;
    ApplyIs(lines, cursorLine, cursorCol, item, left, prefix, right);
    CutInserted(left, Inserted(item, prefix, left), Remainder(item, prefix, right), Offset(item, prefix, left));
    InsertedStarts(item, prefix, left);
  }

  lemma InsertedStarts(item: Item, prefix: string, before: string)
    ensures item.value <= if IsSlashCommand(prefix, before) then Inserted(item, prefix, before)[1..]
                          else Inserted(item, prefix, before)
  {
    if IsSlashCommand(prefix, before) {
      assert ("/" + item.value + " ")[1..] == item.value + " ";
    }
  }

  // ----- Descending into quoted directories

  function Before(edit: Edit): string {
    Slice(LineAt(edit.lines, edit.cursorLine), 0, edit.cursorCol)
  }

  function After(edit: Edit): string {
    var line := LineAt(edit.lines, edit.cursorLine);
    Slice(line, edit.cursorCol, |line|)
  }

  lemma StandingSplits(edit: Edit, left: string, prefix: string, right: string)
    requires Standing(edit.lines, edit.cursorLine, edit.cursorCol, left, prefix, right)
    ensures Before(edit) == left + prefix && After(edit) == right
  {
    hide Slice;
    SlicesAre(left, prefix, right);
  }

  /** What stands before and behind the cursor once a completion is accepted. A command gets
      a slash and a space, a mentioned file a space; the cursor is behind all that, or before
      the closing quote of a directory. A quote behind the prefix goes if the value brings
      its own. */
  lemma CompletionExact(lines: seq<string>, cursorLine: nat, cursorCol: nat, item: Item,
                        left: string, prefix: string, right: string)
    requires Standing(lines, cursorLine, cursorCol, left, prefix, right)
    ensures var edit := Apply(lines, cursorLine, cursorCol, item, prefix);
            var command := "/" <= prefix && Trim(left) == "" && '/' !in prefix[1..];
            var quoted := item.value != "" && item.value[|item.value| - 1] == '"';
            var directory := item.title != "" && item.title[|item.title| - 1] == '/';
            var inQuotes := prefix != ""
              && (prefix[0] == '"' || (|prefix| > 1 && prefix[0] == '@' && prefix[1] == '"'));
            var kept := if inQuotes && quoted && right != "" && right[0] == '"' then right[1..] else right;
            if command then Before(edit) == left + "/" + item.value + " " && After(edit) == kept
            else if directory && quoted then
              Before(edit) == left + item.value[..|item.value| - 1] && After(edit) == "\"" + kept
            else if prefix != "" && prefix[0] == '@' && !directory then
              Before(edit) == left + item.value + " " && After(edit) == kept
            else Before(edit) == left + item.value && After(edit) == kept
  {
    hide *;
    ApplyIs(lines, cursorLine, cursorCol, item, left, prefix, right);
    var inserted, kept, offset := Inserted(item, prefix, left), Remainder(item, prefix, right),
      Offset(item, prefix, left);
    CutInserted(left, inserted, kept, offset);
    LineIs(lines, cursorLine, left, inserted[..offset], inserted[offset..] + kept);
    StandingSplits(Apply(lines, cursorLine, cursorCol, item, prefix), left, inserted[..offset],
                   inserted[offset..] + kept);
    ItemFlags(item);
    PrefixFlags(prefix);
    CommandExact(prefix, left);
    InsertedExact(item, prefix, left);
    KeptExact(item, prefix, right);
    CutExact(left, inserted, offset, item.value);
    NothingBefore(kept);
    if item.IsQuoted() {
      QuoteCut(item.value);
    }
  }

  lemma KeptExact(item: Item, prefix: string, right: string)
    ensures Remainder(item, prefix, right) ==
      if IsQuotedPrefix(prefix) && item.IsQuoted() && right != "" && right[0] == '"' then right[1..] else right
  {
    hide EndsWith, IsQuotedPrefix;
    StartsWithOne(right, "\"");
  }

  lemma LineIs(lines: seq<string>, cursorLine: nat, left: string, middle: string, right: string)
    ensures Standing(SetLine(lines, cursorLine, left + middle + right), cursorLine, |left| + |middle|, left, middle,
                     right)
  {
    hide SetLine;
  }

  lemma ItemFlags(item: Item)
    ensures item.IsQuoted() <==> item.value != "" && item.value[|item.value| - 1] == '"'
    ensures item.IsDirectory() <==> item.title != "" && item.title[|item.title| - 1] == '/'
  {
    hide EndsWith;
    EndsWithOne(item.value, "\"");
    EndsWithOne(item.title, "/");
  }

  lemma PrefixFlags(prefix: string)
    ensures "@" <= prefix <==> prefix != "" && prefix[0] == '@'
    ensures IsQuotedPrefix(prefix) <==>
      prefix != "" && (prefix[0] == '"' || (|prefix| > 1 && prefix[0] == '@' && prefix[1] == '"'))
  {
    StartsWithOne(prefix, "@");
    StartsWithOne(prefix, "\"");
    StartsWithTwo(prefix, "@\"");
  }

  /** The whole of what is inserted is before the cursor, but for the last character of a
      directory in quotes. */
  lemma InsertedExact(item: Item, prefix: string, left: string)
    ensures var inserted, offset := Inserted(item, prefix, left), Offset(item, prefix, left);
            if IsSlashCommand(prefix, left) then offset == |inserted| && inserted == "/" + item.value + " "
            else if item.IsDirectory() && item.IsQuoted() then offset == |inserted| - 1 && inserted == item.value
            else if "@" <= prefix && !item.IsDirectory() then offset == |inserted| && inserted == item.value + " "
            else offset == |inserted| && inserted == item.value
  {
    hide EndsWith, IsSlashCommand, IsQuotedPrefix;
  }

  lemma CommandExact(prefix: string, left: string)
    ensures IsSlashCommand(prefix, left) <==> "/" <= prefix && Trim(left) == "" && '/' !in prefix[1..]
  {
    hide Trim;
  }

  lemma CutExact(left: string, inserted: string, offset: nat, value: string)
    ensures offset == |inserted| == |value| && inserted == value ==>
      left + inserted[..offset] == left + value && inserted[offset..] == ""
    ensures offset == |inserted| && inserted == value + " " ==>
      left + inserted[..offset] == left + value + " " && inserted[offset..] == ""
    ensures offset == |inserted| && inserted == "/" + value + " " ==>
      left + inserted[..offset] == left + "/" + value + " " && inserted[offset..] == ""
  {
  }

  lemma QuoteCut(value: string)
    requires value != "" && value[|value| - 1] == '"'
    ensures value[|value| - 1..] == "\""
  {
  }

  lemma NothingBefore(kept: string)
    ensures "" + kept == kept
  {
  }

  /** A suggestion for `path` whose value comes out quoted. */
  ghost predicate Offers(item: Item, path: string, isAt: bool, isQuoted: bool) {
    && '"' !in path
    && (isQuoted || ' ' in path)
    && item.value == BuildCompletionValue(path, isAt, isQuoted)
  }

  /** Accepting a quoted directory leaves the cursor before its closing quote, where the
      extractor finds the value again, less that quote, exactly if the prefix is not taken for
      a slash command; if it is, the cursor ends up behind both quotes. */
  lemma DirectoryAccepted(lines: seq<string>, cursorLine: nat, cursorCol: nat, item: Item,
                          left: string, prefix: string, right: string, path: string, isAt: bool, isQuoted: bool)
    requires Standing(lines, cursorLine, cursorCol, left, prefix, right)
    requires Balanced(left)
    requires Offers(item, path, isAt, isQuoted) && item.IsDirectory()
    ensures Opener(isAt) + path == item.value[..|item.value| - 1]
    ensures var edit := Apply(lines, cursorLine, cursorCol, item, prefix);
            && edit.cursorLine == cursorLine
            && (ExtractQuotedPrefix(Before(edit)) == Some(Opener(isAt) + path) <==> !IsSlashCommand(prefix, left))
            && if IsSlashCommand(prefix, left)
               then Behind(edit, item, left, prefix, right)
               else Standing(edit.lines, cursorLine, edit.cursorCol, left, Opener(isAt) + path,
                             "\"" + Remainder(item, prefix, right))
  {
    hide Standing, Balanced, IsSlashCommand, Opener, UnclosedQuote, ExtractQuotedPrefix, Apply, Before, After,
      Remainder, Inserted;
    QuotedValue(path, isAt, isQuoted);
    if IsSlashCommand(prefix, left) {
      AcceptedBehind(lines, cursorLine, cursorCol, item, left, prefix, right, path, isAt, isQuoted);
    } else {
      DirectoryInside(lines, cursorLine, cursorCol, item, left, prefix, right, path, isAt, isQuoted);
    }
  }

  lemma DirectoryInside(lines: seq<string>, cursorLine: nat, cursorCol: nat, item: Item,
                        left: string, prefix: string, right: string, path: string, isAt: bool, isQuoted: bool)
    requires Standing(lines, cursorLine, cursorCol, left, prefix, right)
    requires Balanced(left) && !IsSlashCommand(prefix, left)
    requires Offers(item, path, isAt, isQuoted) && item.IsDirectory()
    ensures var edit := Apply(lines, cursorLine, cursorCol, item, prefix);
            && edit.cursorLine == cursorLine
            && Standing(edit.lines, cursorLine, edit.cursorCol, left, Opener(isAt) + path,
                        "\"" + Remainder(item, prefix, right))
            && ExtractQuotedPrefix(Before(edit)) == Some(Opener(isAt) + path)
  {
    hide *;
    var start, kept := Opener(isAt) + path, Remainder(item, prefix, right);
    ApplyIs(lines, cursorLine, cursorCol, item, left, prefix, right);
    DirectoryInserted(item, left, prefix, path, isAt, isQuoted);
    StandsInside(lines, cursorLine, left, start, "\"", kept);
    StandingSplits(Apply(lines, cursorLine, cursorCol, item, prefix), left, start, "\"" + kept);
    QuotedlyExtracts(left + start, start, isAt, left, path);
  }

  lemma DirectoryInserted(item: Item, left: string, prefix: string, path: string, isAt: bool, isQuoted: bool)
    requires !IsSlashCommand(prefix, left) && Offers(item, path, isAt, isQuoted) && item.IsDirectory()
    ensures Inserted(item, prefix, left) == (Opener(isAt) + path) + "\""
    ensures Offset(item, prefix, left) == |Opener(isAt) + path|
    ensures '"' !in path
  {
    hide IsSlashCommand, Opener, BuildCompletionValue;
    QuotedValue(path, isAt, isQuoted);
  }

  lemma StandsInside(lines: seq<string>, cursorLine: nat, left: string, start: string, quote: string, kept: string)
    ensures Standing(SetLine(lines, cursorLine, left + (start + quote) + kept), cursorLine, |left| + |start|,
                     left, start, quote + kept)
  {
    hide SetLine;
    assert left + (start + quote) + kept == left + start + (quote + kept);
  }

  /** The cursor stands behind all that was inserted, where no quote is open. */
  predicate Behind(edit: Edit, item: Item, left: string, prefix: string, right: string) {
    && Before(edit) == left + Inserted(item, prefix, left)
    && After(edit) == Remainder(item, prefix, right)
    && UnclosedQuote(Before(edit)) == None
    && ExtractQuotedPrefix(Before(edit)) == None
  }

  /** Accepting a quoted file, or anything in place of a slash command. */
  lemma AcceptedBehind(lines: seq<string>, cursorLine: nat, cursorCol: nat, item: Item,
                       left: string, prefix: string, right: string, path: string, isAt: bool, isQuoted: bool)
    requires Standing(lines, cursorLine, cursorCol, left, prefix, right)
    requires Balanced(left) && Offers(item, path, isAt, isQuoted)
    requires IsSlashCommand(prefix, left) || !item.IsDirectory()
    ensures var edit := Apply(lines, cursorLine, cursorCol, item, prefix);
            edit.cursorLine == cursorLine && Behind(edit, item, left, prefix, right)
  {
    hide Slice, SetLine, Remainder, IsSlashCommand, Quotes, Offers, Inserted, Before, After;
    ApplyIs(lines, cursorLine, cursorCol, item, left, prefix, right);
    hide Apply;
    var inserted := Inserted(item, prefix, left);
    StandingSplits(Apply(lines, cursorLine, cursorCol, item, prefix), left, inserted, Remainder(item, prefix, right));
    QuotesOfValue(item, path, isAt, isQuoted);
    QuotesOfInserted(item, prefix, left);
    QuotesAppend(left, inserted);
  }

  lemma QuotesOfInserted(item: Item, prefix: string, left: string)
    requires Quotes(item.value) == 2
    ensures Quotes(Inserted(item, prefix, left)) == 2
  {
    hide Quotes, IsSlashCommand;
    NoQuotes("/");
    NoQuotes(" ");
    QuotesAppend("/", item.value);
    QuotesAppend("/" + item.value, " ");
    QuotesAppend(item.value, " ");
  }

  /** Accepting a quoted file leaves no quote open before the cursor. */
  lemma FileAccepted(lines: seq<string>, cursorLine: nat, cursorCol: nat, item: Item,
                     left: string, prefix: string, right: string, path: string, isAt: bool, isQuoted: bool)
    requires Standing(lines, cursorLine, cursorCol, left, prefix, right)
    requires Balanced(left)
    requires Offers(item, path, isAt, isQuoted) && !item.IsDirectory()
    ensures var edit := Apply(lines, cursorLine, cursorCol, item, prefix);
            && Before(edit) == left +
                 (if IsSlashCommand(prefix, left) then "/" + item.value + " "
                  else if "@" <= prefix then item.value + " "
                  else item.value)
            && After(edit) == Remainder(item, prefix, right)
            && UnclosedQuote(Before(edit)) == None
  {
    hide Standing, Apply, Before, After, Remainder, Balanced, Offers, UnclosedQuote, ExtractQuotedPrefix,
      IsSlashCommand;
    AcceptedBehind(lines, cursorLine, cursorCol, item, left, prefix, right, path, isAt, isQuoted);
  }

  lemma QuotesOfValue(item: Item, path: string, isAt: bool, isQuoted: bool)
    requires Offers(item, path, isAt, isQuoted)
    ensures Quotes(item.value) == 2
  {
    QuotedValue(path, isAt, isQuoted);
    OpenerHasOne(isAt);
    NoQuotes(path);
    QuotesAppend(Opener(isAt), path);
    QuotesAppend(Opener(isAt) + path, "\"");
    OpenerHasOne(false);
  }

  lemma OpenerParses(isAt: bool, path: string)
    ensures ParsePathPrefix(Opener(isAt) + path).isAt == isAt
    ensures IsQuotedPrefix(Opener(isAt) + path) && !("/" <= Opener(isAt) + path)
  {
    QuotedValue(path, isAt, true);
    assert (Opener(isAt) + path)[0] == Opener(isAt)[0];
  }

  lemma ClosingQuoteReplaced(item: Item, isAt: bool, path: string, right: string)
    requires item.IsQuoted()
    ensures Remainder(item, Opener(isAt) + path, "\"" + right) == right
  {
    OpenerParses(isAt, path);
    assert ("\"" + right)[1..] == right;
  }

  lemma QuotesAround(left: string, isAt: bool, path: string, right: string)
    requires '"' !in path
    ensures Quotes(left + (Opener(isAt) + path) + ("\"" + right)) == Quotes(left) + 2 + Quotes(right)
  {
    NoQuotes(path);
    OpenerHasOne(isAt);
    OpenerHasOne(false);
    QuotesAppend(left, Opener(isAt) + path);
    QuotesAppend(Opener(isAt), path);
    QuotesAppend("\"", right);
    QuotesAppend(left + (Opener(isAt) + path), "\"" + right);
  }
}
