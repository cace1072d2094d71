/** Splitting session transcripts into as few size-limited files as their order allows. */
module TranscriptPacker {
  import opened JsText

  const MAX_CHARS_PER_FILE := 100_000

  datatype File = File(name: string, content: string)

  // ----- What a file holds

  /** Transcripts joined by blank lines. */
  function Join(group: seq<string>): string {
    if group == [] then ""
    else if |group| == 1 then group[0]
    else Join(group[..|group| - 1]) + "\n\n" + group[|group| - 1]
  }

  function Concat(groups: seq<seq<string>>): seq<string> {
    if groups == [] then [] else Concat(groups[..|groups| - 1]) + groups[|groups| - 1]
  }

  /** The rule for one file: within the limit, or a single transcript. */
  predicate Obeys(group: seq<string>) {
    group != [] && (Length(Join(group)) <= MAX_CHARS_PER_FILE || |group| == 1)
  }

  /** An order-preserving division of the transcripts into files that obey the rule. */
  ghost predicate Divides(groups: seq<seq<string>>, transcripts: seq<string>) {
    Concat(groups) == transcripts && forall i | 0 <= i < |groups| :: Obeys(groups[i])
  }

  function Digits(n: nat): string {
    var digit := ['0' + (n % 10) as char];
    if n < 10 then digit else Digits(n / 10) + digit
  }

  function PadStart(s: string, length: nat): string
    decreases length - |s|
  {
    if |s| < length then PadStart("0" + s, length) else s
  }

  function FileName(index: nat): string {
    "session-transcripts-" + PadStart(Digits(index), 3) + ".txt"
  }

  predicate IsNumeral(s: string) {
    forall i | 0 <= i < |s| :: '0' <= s[i] <= '9'
  }

  function Value(s: string): nat
    requires IsNumeral(s)
  {
    if s == "" then 0 else 10 * Value(s[..|s| - 1]) + (s[|s| - 1] as int - '0' as int)
  }

  lemma {:induction false} DigitsValue(n: nat)
    ensures IsNumeral(Digits(n)) && Value(Digits(n)) == n
  {
    var digit := ['0' + (n % 10) as char];
    if n < 10 {
      assert digit[..0] == "";
    } else {
      DigitsValue(n / 10);
      assert Digits(n)[..|Digits(n)| - 1] == Digits(n / 10);
    }
  }

  lemma {:induction false} ZeroInFront(s: string)
    requires IsNumeral(s)
    ensures IsNumeral("0" + s) && Value("0" + s) == Value(s)
    decreases |s|
  {
    if s == "" {
      assert "0" + s == "0" && "0"[..0] == "";
    } else {
      ZeroInFront(s[..|s| - 1]);
      assert ("0" + s)[..|s|] == "0" + s[..|s| - 1];
    }
  }

  lemma {:induction false} PadValue(s: string, length: nat)
    requires IsNumeral(s)
    ensures IsNumeral(PadStart(s, length)) && Value(PadStart(s, length)) == Value(s)
    decreases length - |s|
  {
    if |s| < length {
      ZeroInFront(s);
      PadValue("0" + s, length);
    }
  }

  /** No file overwrites another. */
  lemma NamesDistinct(i: nat, j: nat)
    ensures FileName(i) == FileName(j) <==> i == j
  {
    DigitsValue(i);
    DigitsValue(j);
    PadValue(Digits(i), 3);
    PadValue(Digits(j), 3);
    NameTells(i);
    NameTells(j);
  }

  /** A file is named by its index, with zeros in front up to three digits. */
  lemma NameExact(index: nat) returns (number: string)
    ensures FileName(index) == "session-transcripts-" + number + ".txt"
    ensures IsNumeral(number) && Value(number) == index
    ensures |number| >= 3 && (|number| > 3 ==> number[0] != '0')
  {
    number := PadStart(Digits(index), 3);
    DigitsValue(index);
    PadValue(Digits(index), 3);
    DigitsLead(index);
    PadLength(Digits(index), 3);
  }

  lemma {:induction false} DigitsLead(n: nat)
    ensures Digits(n) != "" && (n > 0 ==> Digits(n)[0] != '0')
  {
    if n >= 10 {
      DigitsLead(n / 10);
    }
  }

  lemma {:induction false} PadLength(s: string, length: nat)
    ensures PadStart(s, length) == s || |PadStart(s, length)| == length
    ensures |PadStart(s, length)| >= length
    decreases length - |s|
  {
    if |s| < length {
      PadLength("0" + s, length);
    }
  }

  lemma NameTells(index: nat)
    ensures |FileName(index)| >= 24 && FileName(index)[20..|FileName(index)| - 4] == PadStart(Digits(index), 3)
  {
  }

  /** The files hold the groups, one each, under consecutive names. */
  ghost predicate Holds(files: seq<File>, groups: seq<seq<string>>) {
    |files| == |groups| && forall i | 0 <= i < |files| :: files[i] == File(FileName(i), Join(groups[i]))
  }

  // ----- Lengths

  lemma {:induction false} JoinAppend(a: seq<string>, b: seq<string>)
    requires a != [] && b != []
    ensures Join(a + b) == Join(a) + "\n\n" + Join(b)
    decreases |b|
  {
    var init, last := b[..|b| - 1], b[|b| - 1];
    assert b == init + [last] && a + b == (a + init) + [last];
    if init == [] {
      assert a + init == a;
    } else {
      JoinAppend(a, init);
      JoinSnoc(init, last);
    }
    hide Join;
    JoinSnoc(a + init, last);
  }

  lemma JoinSnoc(group: seq<string>, last: string)
    ensures Join(group + [last]) == if group == [] then last else Join(group) + "\n\n" + last
  {
    assert (group + [last])[..|group|] == group;
  }

  lemma JoinedLength(a: string, b: string)
    ensures Length(a + "\n\n" + b) == Length(a) + 2 + Length(b)
  {
    LengthAppend(a + "\n\n", b);
    LengthAppend(a, "\n\n");
    assert "\n\n"[..1] == "\n" && "\n"[..0] == "";
  }

  lemma LongerJoin(a: seq<string>, b: seq<string>)
    ensures Length(Join(a)) <= Length(Join(a + b)) && Length(Join(b)) <= Length(Join(a + b))
  {
    if a == [] {
      assert a + b == b;
    } else if b == [] {
      assert a + b == a;
    } else {
      JoinAppend(a, b);
      JoinedLength(Join(a), Join(b));
    }
  }

  /** How many transcripts the first `n` groups hold; all of them beyond the last. */
  function Covered(groups: seq<seq<string>>, n: nat): nat {
    if n == 0 then 0
    else if n <= |groups| then Covered(groups, n - 1) + |groups[n - 1]|
    else Covered(groups, n - 1)
  }

  lemma {:induction false} CoveredPrefix(groups: seq<seq<string>>, n: nat)
    requires n <= |groups|
    ensures Covered(groups, n) <= |Concat(groups)|
    ensures Concat(groups)[..Covered(groups, n)] == Concat(groups[..n])
    decreases |groups|
  {
    if n == |groups| {
      CoveredAll(groups);
      assert groups[..n] == groups;
    } else {
      var init := groups[..|groups| - 1];
      CoveredPrefix(init, n);
      SameCovered(groups, n);
      assert init[..n] == groups[..n];
    }
  }

  lemma {:induction false} SameCovered(groups: seq<seq<string>>, n: nat)
    requires n < |groups|
    ensures Covered(groups[..|groups| - 1], n) == Covered(groups, n)
  {
    if n > 0 {
      SameCovered(groups, n - 1);
    }
  }

  lemma {:induction false} CoveredAll(groups: seq<seq<string>>)
    ensures Covered(groups, |groups|) == |Concat(groups)|
  {
    if groups != [] {
      CoveredAll(groups[..|groups| - 1]);
      SameCovered(groups, |groups| - 1);
    }
  }

  lemma {:induction false} CoveredBeyond(groups: seq<seq<string>>, n: nat)
    requires n >= |groups|
    ensures Covered(groups, n) == |Concat(groups)|
  {
    if n == |groups| {
      CoveredAll(groups);
    } else {
      CoveredBeyond(groups, n - 1);
    }
  }

  /** The group after the first `n` is the stretch of transcripts they leave off at. */
  lemma GroupIsStretch(groups: seq<seq<string>>, transcripts: seq<string>, n: nat)
    requires Divides(groups, transcripts) && n < |groups|
    ensures Covered(groups, n) <= Covered(groups, n + 1) <= |transcripts|
    ensures groups[n] == transcripts[Covered(groups, n)..Covered(groups, n + 1)]
  {
    CoveredPrefix(groups, n);
    CoveredPrefix(groups, n + 1);
    assert groups[..n + 1][..n] == groups[..n];
    var upTo := transcripts[..Covered(groups, n + 1)];
    assert upTo == Concat(groups[..n]) + groups[n];
    assert groups[n] == upTo[Covered(groups, n)..];
  }

  // ----- Why closing a file late is best

  /** No division reaches past `end` with `count` files. */
  ghost predicate Reaches(transcripts: seq<string>, count: nat, end: nat) {
    forall other | Divides(other, transcripts) :: Covered(other, count) <= end
  }

  lemma LongerStretch(transcripts: seq<string>, from: nat, a: nat, b: nat, to: nat)
    requires from <= a <= b <= to <= |transcripts|
    ensures Length(Join(transcripts[a..b])) <= Length(Join(transcripts[from..to]))
  {
    var front, middle, back := transcripts[from..a], transcripts[a..b], transcripts[b..to];
    assert transcripts[from..to] == front + middle + back;
    LongerJoin(front + middle, back);
    LongerJoin(front, middle);
  }

  /** If every division reaches at most `start` with `count` files, and the stretch from
      `start` to `end` cannot take the transcript at `end` in, one more file reaches at most
      `end`. */
  lemma NoneReachesFurther(transcripts: seq<string>, count: nat, start: nat, end: nat)
    requires start < end <= |transcripts| && Reaches(transcripts, count, start)
    requires end < |transcripts| ==> Length(Join(transcripts[start..end + 1])) > MAX_CHARS_PER_FILE
    ensures Reaches(transcripts, count + 1, end)
  {
    hide Join, Covered;
    forall other | Divides(other, transcripts) ensures Covered(other, count + 1) <= end {
      if count < |other| {
        GroupIsStretch(other, transcripts, count);
        var from, to := Covered(other, count), Covered(other, count + 1);
        assert Obeys(other[count]) && from <= start;
        if to > end {
          LongerStretch(transcripts, from, start, end + 1, to);
        }
      } else {
        CoveredBeyond(other, count);
      }
    }
  }

  /** With one file fewer, no division holds all the transcripts. */
  lemma FewestFiles(transcripts: seq<string>, count: nat, end: nat)
    requires Reaches(transcripts, count, end) && end < |transcripts|
    ensures forall other | Divides(other, transcripts) :: count < |other|
  {
    forall other | Divides(other, transcripts) ensures count < |other| {
      if |other| <= count {
        CoveredBeyond(other, count);
      }
    }
  }

  // ----- The split loop

  lemma ConcatSnoc(groups: seq<seq<string>>, group: seq<string>)
    ensures Concat(groups + [group]) == Concat(groups) + group
  {
    assert (groups + [group])[..|groups|] == groups;
  }

  /** The buffer grows by one transcript. */
  lemma JoinNext(transcripts: seq<string>, start: nat, i: nat)
    requires start <= i < |transcripts| && forall k | 0 <= k < |transcripts| :: transcripts[k] != ""
    ensures Join(transcripts[start..i]) == "" <==> start == i
    ensures Join(transcripts[start..i + 1]) ==
      Join(transcripts[start..i]) + (if start < i then "\n\n" else "") + transcripts[i]
    ensures Length(Join(transcripts[start..i + 1])) ==
      Length(Join(transcripts[start..i])) + (if start < i then 2 else 0) + Length(transcripts[i])
  {
    var group, t := transcripts[start..i], transcripts[i];
    assert transcripts[start..i + 1] == group + [t];
    assert (group + [t])[..|group|] == group;
    if start < i {
      JoinedLength(Join(group), t);
    }
  }

  lemma JoinEmpty(transcripts: seq<string>, i: nat)
    requires i <= |transcripts|
    ensures Join(transcripts[i..i]) == ""
  {
  }

  ghost predicate FallsShort(transcripts: seq<string>, count: nat, end: nat) {
    exists before: nat | before < end :: Reaches(transcripts, count, before)
  }

  /** What is written so far: closed groups up to `start`, held by the files, and no
      division gets further with as many files, or as far with fewer. */
  ghost predicate Written(transcripts: seq<string>, files: seq<File>, groups: seq<seq<string>>, start: nat) {
    && start <= |transcripts|
    && Divides(groups, transcripts[..start])
    && Holds(files, groups)
    && Reaches(transcripts, |groups|, start)
    && (groups == [] ==> start == 0)
    && (groups != [] ==> FallsShort(transcripts, |groups| - 1, start))
  }

  /** Closing the group from `start` to `end`, one that could not be longer. */
  lemma WriteNext(transcripts: seq<string>, files: seq<File>, groups: seq<seq<string>>, start: nat, end: nat)
    requires Written(transcripts, files, groups, start) && start < end <= |transcripts|
    requires Obeys(transcripts[start..end])
    requires end < |transcripts| ==> Length(Join(transcripts[start..end + 1])) > MAX_CHARS_PER_FILE
    ensures var group := transcripts[start..end];
            Written(transcripts, files + [File(FileName(|files|), Join(group))], groups + [group], end)
  {
    hide Join, Length;
    var group := transcripts[start..end];
    ConcatSnoc(groups, group);
    assert transcripts[..end] == transcripts[..start] + group;
    NoneReachesFurther(transcripts, |groups|, start, end);
    assert |groups + [group]| - 1 == |groups|;
  }

  lemma NothingWritten(transcripts: seq<string>)
    ensures Written(transcripts, [], [], 0)
  {
    assert transcripts[..0] == [];
  }

  lemma WrittenAll(transcripts: seq<string>, files: seq<File>, groups: seq<seq<string>>)
    requires Written(transcripts, files, groups, |transcripts|)
    ensures Divides(groups, transcripts) && Holds(files, groups)
    ensures forall other | Divides(other, transcripts) :: |files| <= |other|
  {
    assert transcripts[..|transcripts|] == transcripts;
    if groups != [] {
      var before: nat :| before < |transcripts| && Reaches(transcripts, |groups| - 1, before);
      FewestFiles(transcripts, |groups| - 1, before);
    }
  }

  /** The files hold all transcripts in order, each file within the limit or a single
      transcript, and no such division of the transcripts needs fewer files. */
  method SplitIntoFiles(transcripts: seq<string>) returns (files: seq<File>)
    requires forall i | 0 <= i < |transcripts| :: transcripts[i] != ""
    ensures exists groups :: Divides(groups, transcripts) && Holds(files, groups)
    ensures forall other | Divides(other, transcripts) :: |files| <= |other|
  {
    hide Written, Obeys, FileName, Join, Divides, Holds, Length;
    files := [];
    var currentContent := "";
    var fileIndex := 0;
    ghost var groups: seq<seq<string>> := [];
    ghost var start := 0;
    NothingWritten(transcripts);
    JoinEmpty(transcripts, 0);
    for i := 0 to |transcripts|
      invariant start <= i && fileIndex == |files| && Written(transcripts, files, groups, start)
      invariant currentContent == Join(transcripts[start..i]) && Length(currentContent) <= MAX_CHARS_PER_FILE
    {
      var transcript := transcripts[i];
      JoinNext(transcripts, start, i);
      if Length(currentContent) > 0 && Length(currentContent) + Length(transcript) + 2 > MAX_CHARS_PER_FILE {
        CurrentObeys(transcripts[start..i]);
        WriteNext(transcripts, files, groups, start, i);
        files := files + [File(FileName(fileIndex), currentContent)];
        groups, start := groups + [transcripts[start..i]], i;
        currentContent := "";
        fileIndex := fileIndex + 1;
        JoinNext(transcripts, start, i);
      }
      if Length(transcript) > MAX_CHARS_PER_FILE {
        // The source flushes here once more; the flush above has always emptied the buffer.
        assert currentContent == "" && start == i;
        SingleObeys(transcripts, i);
        WriteNext(transcripts, files, groups, start, i + 1);
        files := files + [File(FileName(fileIndex), transcript)];
        groups, start := groups + [transcripts[start..i + 1]], i + 1;
        fileIndex := fileIndex + 1;
        JoinEmpty(transcripts, i + 1);
        continue;
      }
      currentContent := currentContent + (if currentContent != "" then "\n\n" else "") + transcript;
    }
    if Length(currentContent) > 0 {
      JoinEmpty(transcripts, |transcripts|);
      CurrentObeys(transcripts[start..|transcripts|]);
      WriteNext(transcripts, files, groups, start, |transcripts|);
      files := files + [File(FileName(fileIndex), currentContent)];
      groups := groups + [transcripts[start..|transcripts|]];
    } else {
      NothingLeft(transcripts, start);
    }
    WrittenAll(transcripts, files, groups);
  }

  lemma NothingLeft(transcripts: seq<string>, start: nat)
    requires start <= |transcripts| && forall i | 0 <= i < |transcripts| :: transcripts[i] != ""
    requires Join(transcripts[start..|transcripts|]) == ""
    ensures start == |transcripts|
  {
    if start < |transcripts| {
      JoinNext(transcripts, start, |transcripts| - 1);
    }
  }

  lemma CurrentObeys(group: seq<string>)
    requires group != [] && Length(Join(group)) <= MAX_CHARS_PER_FILE
    ensures Obeys(group)
  {
  }

  lemma SingleObeys(transcripts: seq<string>, i: nat)
    requires i < |transcripts| && Length(transcripts[i]) > MAX_CHARS_PER_FILE
    ensures Obeys(transcripts[i..i + 1]) && Join(transcripts[i..i + 1]) == transcripts[i]
    ensures i + 1 < |transcripts| ==> Length(Join(transcripts[i..i + 2])) > MAX_CHARS_PER_FILE
  {
    assert transcripts[i..i + 1] == [transcripts[i]];
    if i + 1 < |transcripts| {
      assert transcripts[i..i + 2] == [transcripts[i]] + [transcripts[i + 1]];
      LongerJoin([transcripts[i]], [transcripts[i + 1]]);
    }
  }
}
