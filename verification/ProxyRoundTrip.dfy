/** Stripping a message into events and folding them back rebuilds the message. */
module ProxyRoundTrip {
  import opened Messages
  import opened Framing
  import opened JsText
  import opened Proxy

  // ----- Each block sees only its own events

  function ProcessAll(parsers: Parsers, d: Decoder, events: seq<ProxyEvent>): Result<Decoder> {
    if events == [] then Ok(d)
    else
      match ProcessAll(parsers, d, events[..|events| - 1])
      case Threw(reason) => Threw(reason)
      case Ok(before) => Process(parsers, before, events[|events| - 1])
  }

  predicate Concerns(event: ProxyEvent, index: nat) {
    event.Indexed() && event.index == index
  }

  /** The events of one block, in the order they arrive. */
  function At(events: seq<ProxyEvent>, index: nat): (own: seq<ProxyEvent>)
    ensures forall i | 0 <= i < |own| :: Concerns(own[i], index)
  {
    if events == [] then []
    else
      var before, last := At(events[..|events| - 1], index), events[|events| - 1];
      if Concerns(last, index) then before + [last] else before
  }

  function ReviseAll(parsers: Parsers, block: Option<Content>, events: seq<ProxyEvent>): Result<Option<Content>>
    requires forall i | 0 <= i < |events| :: events[i].Indexed()
  {
    if events == [] then Ok(block)
    else
      match ReviseAll(parsers, block, events[..|events| - 1])
      case Threw(reason) => Threw(reason)
      case Ok(before) => Revise(parsers, before, events[|events| - 1])
  }

  lemma ReviseNext(parsers: Parsers, block: Option<Content>, events: seq<ProxyEvent>, event: ProxyEvent)
    requires forall i | 0 <= i < |events| :: events[i].Indexed()
    requires event.Indexed()
    ensures ReviseAll(parsers, block, events + [event]) ==
      match ReviseAll(parsers, block, events)
      case Threw(reason) => Threw(reason)
      case Ok(before) => Revise(parsers, before, event)
  {
    assert (events + [event])[..|events|] == events;
  }

  /** The decoder's content is, index by index, what the events for that index make of it. */
  ghost predicate Separate(parsers: Parsers, d: Decoder, events: seq<ProxyEvent>, d': Decoder) {
    forall i: nat :: ReviseAll(parsers, Get(d.partial.content, i), At(events, i)) == Ok(Get(d'.partial.content, i))
  }

  lemma SeparateStep(parsers: Parsers, d: Decoder, events: seq<ProxyEvent>, before: Decoder, after: Decoder)
    requires events != [] && Separate(parsers, d, events[..|events| - 1], before)
    requires Process(parsers, before, events[|events| - 1]) == Ok(after)
    ensures Separate(parsers, d, events, after)
  {
    hide ReviseAll, Put;
    var init, last := events[..|events| - 1], events[|events| - 1];
    forall i: nat
      ensures ReviseAll(parsers, Get(d.partial.content, i), At(events, i)) == Ok(Get(after.partial.content, i))
    {
      assert ReviseAll(parsers, Get(d.partial.content, i), At(init, i)) == Ok(Get(before.partial.content, i));
      if Concerns(last, i) {
        ReviseNext(parsers, Get(d.partial.content, i), At(init, i), last);
      }
    }
  }

  /** Decoding succeeds exactly when the events of every single block are well formed on
      their own, and then every block is what its own events make of it: interleaving blocks
      changes nothing. */
  lemma {:induction false} BlocksAreSeparate(parsers: Parsers, d: Decoder, events: seq<ProxyEvent>)
    ensures ProcessAll(parsers, d, events).Ok? <==>
            forall i: nat :: ReviseAll(parsers, Get(d.partial.content, i), At(events, i)).Ok?
    ensures ProcessAll(parsers, d, events).Ok? ==> Separate(parsers, d, events, ProcessAll(parsers, d, events).value)
    decreases |events|
  {
    if events != [] {
      var init, last := events[..|events| - 1], events[|events| - 1];
      BlocksAreSeparate(parsers, d, init);
      var before := ProcessAll(parsers, d, init);
      if before.Threw? {
        var i: nat :| ReviseAll(parsers, Get(d.partial.content, i), At(init, i)).Threw?;
        StaysThrown(parsers, d, events, i);
      } else if Process(parsers, before.value, last).Ok? {
        SeparateStep(parsers, d, events, before.value, Process(parsers, before.value, last).value);
      } else {
        var i := last.index;
        assert ReviseAll(parsers, Get(d.partial.content, i), At(init, i)) == Ok(Get(before.value.partial.content, i));
        ReviseNext(parsers, Get(d.partial.content, i), At(init, i), last);
        assert ReviseAll(parsers, Get(d.partial.content, i), At(events, i)).Threw?;
      }
    }
  }

  lemma StaysThrown(parsers: Parsers, d: Decoder, events: seq<ProxyEvent>, i: nat)
    requires events != [] && ReviseAll(parsers, Get(d.partial.content, i), At(events[..|events| - 1], i)).Threw?
    ensures ReviseAll(parsers, Get(d.partial.content, i), At(events, i)).Threw?
  {
    if Concerns(events[|events| - 1], i) {
      ReviseNext(parsers, Get(d.partial.content, i), At(events[..|events| - 1], i), events[|events| - 1]);
    }
  }

  // ----- Stripping one block

  function Opening(block: Content, index: nat): (event: ProxyEvent)
    ensures Concerns(event, index)
  {
    match block
    case TextContent(_, _) => TextStart(index)
    case ThinkingContent(_, _, _) => ThinkingStart(index)
    case CallContent(id, name, _, _, _) => CallStart(index, id, name)
  }

  function Fragment(block: Content, index: nat, delta: string): (event: ProxyEvent)
    ensures Concerns(event, index)
  {
    match block
    case TextContent(_, _) => TextDelta(index, delta)
    case ThinkingContent(_, _, _) => ThinkingDelta(index, delta)
    case CallContent(_, _, _, _, _) => CallDelta(index, delta)
  }

  function Closing(block: Content, index: nat): (event: ProxyEvent)
    ensures Concerns(event, index)
  {
    match block
    case TextContent(_, signature) => TextEnd(index, signature)
    case ThinkingContent(_, signature, _) => ThinkingEnd(index, signature)
    case CallContent(_, _, _, _, _) => CallEnd(index)
  }

  function Fragments(block: Content, index: nat, deltas: seq<string>): (events: seq<ProxyEvent>)
    ensures |events| == |deltas|
    ensures forall i | 0 <= i < |events| :: events[i] == Fragment(block, index, deltas[i])
  {
    seq(|deltas|, i requires 0 <= i < |deltas| => Fragment(block, index, deltas[i]))
  }

  /** The deltas spell the block out: its text, or the JSON its arguments are parsed from. */
  predicate Spells(parsers: Parsers, deltas: seq<string>, block: Content) {
    match block
    case TextContent(text, _) => Concat(deltas) == text
    case ThinkingContent(thinking, _, _) => Concat(deltas) == thinking
    case CallContent(_, _, arguments, _, partialJson) =>
      ParseStreamingJson(parsers, Concat(deltas)) == arguments && partialJson.None?
  }

  function Stripped(block: Content, index: nat, deltas: seq<string>): seq<ProxyEvent> {
    [Opening(block, index)] + Fragments(block, index, deltas) + [Closing(block, index)]
  }

  /** `events` are the stripped form of `block`, cut into any number of deltas. */
  ghost predicate Strips(parsers: Parsers, events: seq<ProxyEvent>, index: nat, block: Content) {
    exists deltas :: Spells(parsers, deltas, block) && events == Stripped(block, index, deltas)
  }

  /** The block as the protocol can carry it. */
  function Carried(block: Content): Content {
    match block
    case TextContent(_, _) => block
    case ThinkingContent(_, _, _) => block.(redacted := false)
    case CallContent(_, _, _, _, _) => block.(thoughtSignature := None)
  }

  /** The block while its deltas come in. */
  function Growing(parsers: Parsers, block: Content, text: string): Content {
    match block
    case TextContent(_, _) => TextContent(text, None)
    case ThinkingContent(_, _, _) => ThinkingContent(text, None, false)
    case CallContent(id, name, _, _, _) =>
      CallContent(id, name, ParseStreamingJson(parsers, text), None, Some(text))
  }

  lemma GrowStep(parsers: Parsers, was: Option<Content>, block: Content, index: nat, text: string, delta: string)
    ensures Revise(parsers, was, Opening(block, index)) == Ok(Some(Growing(parsers, block, "")))
    ensures Revise(parsers, Some(Growing(parsers, block, text)), Fragment(block, index, delta)) ==
            Ok(Some(Growing(parsers, block, text + delta)))
  {
  }

  lemma FragmentsSnoc(block: Content, index: nat, deltas: seq<string>)
    requires deltas != []
    ensures [Opening(block, index)] + Fragments(block, index, deltas) ==
            ([Opening(block, index)] + Fragments(block, index, deltas[..|deltas| - 1])) +
            [Fragment(block, index, deltas[|deltas| - 1])]
  {
  }

  lemma {:induction false} FragmentsGrow(parsers: Parsers, was: Option<Content>, block: Content, index: nat,
                                         deltas: seq<string>)
    ensures ReviseAll(parsers, was, [Opening(block, index)] + Fragments(block, index, deltas)) ==
            Ok(Some(Growing(parsers, block, Concat(deltas))))
    decreases |deltas|
  {
    hide Revise, Growing, Fragment;
    var open := [Opening(block, index)];
    if deltas == [] {
      assert open + Fragments(block, index, deltas) == [] + open;
      ReviseNext(parsers, was, [], Opening(block, index));
      GrowStep(parsers, was, block, index, "", "");
    } else {
      var init, delta := deltas[..|deltas| - 1], deltas[|deltas| - 1];
      FragmentsGrow(parsers, was, block, index, init);
      FragmentsSnoc(block, index, deltas);
      ReviseNext(parsers, was, open + Fragments(block, index, init), Fragment(block, index, delta));
      GrowStep(parsers, was, block, index, Concat(init), delta);
    }
  }

  /** Folding the stripped form of a block gives the block back, as far as the protocol
      carries it, whatever was at its index before. */
  lemma StrippedRevises(parsers: Parsers, was: Option<Content>, block: Content, index: nat, deltas: seq<string>)
    requires Spells(parsers, deltas, block)
    ensures ReviseAll(parsers, was, Stripped(block, index, deltas)) == Ok(Some(Carried(block)))
  {
    FragmentsGrow(parsers, was, block, index, deltas);
    ReviseNext(parsers, was, [Opening(block, index)] + Fragments(block, index, deltas), Closing(block, index));
  }

  // ----- Whole messages

  /** `events` are the stripped forms of all blocks, interleaved in any order, among any
      number of `start` events. */
  ghost predicate StripsAll(parsers: Parsers, events: seq<ProxyEvent>, blocks: seq<Content>) {
    && (forall k | 0 <= k < |events| :: events[k].Started? || (events[k].Indexed() && events[k].index < |blocks|))
    && (forall i: nat | i < |blocks| :: Strips(parsers, At(events, i), i, blocks[i]))
  }

  function CarriedAll(blocks: seq<Content>): (content: seq<Option<Content>>)
    ensures |content| == |blocks| && forall i | 0 <= i < |blocks| :: content[i] == Some(Carried(blocks[i]))
  {
    seq(|blocks|, i requires 0 <= i < |blocks| => Some(Carried(blocks[i])))
  }

  lemma {:induction false} NothingBeyond(events: seq<ProxyEvent>, n: nat, i: nat)
    requires forall k | 0 <= k < |events| :: events[k].Indexed() ==> events[k].index < n
    requires n <= i
    ensures At(events, i) == []
  {
    if events != [] {
      NothingBeyond(events[..|events| - 1], n, i);
    }
  }

  lemma {:induction false} ContentFits(parsers: Parsers, d: Decoder, events: seq<ProxyEvent>, n: nat)
    requires ProcessAll(parsers, d, events).Ok? && |d.partial.content| <= n
    requires forall k | 0 <= k < |events| :: events[k].Indexed() ==> events[k].index < n
    ensures |ProcessAll(parsers, d, events).value.partial.content| <= n
  {
    if events != [] {
      ContentFits(parsers, d, events[..|events| - 1], n);
    }
  }

  lemma {:induction false} OnlyContent(parsers: Parsers, d: Decoder, events: seq<ProxyEvent>)
    requires ProcessAll(parsers, d, events).Ok?
    requires forall k | 0 <= k < |events| :: events[k].Started? || events[k].Indexed()
    ensures var d' := ProcessAll(parsers, d, events).value;
            d'.partial == d.partial.(content := d'.partial.content)
  {
    if events != [] {
      OnlyContent(parsers, d, events[..|events| - 1]);
    }
  }

  lemma EveryBlockRevises(parsers: Parsers, events: seq<ProxyEvent>, blocks: seq<Content>, i: nat)
    requires StripsAll(parsers, events, blocks)
    ensures ReviseAll(parsers, None, At(events, i)) == Ok(if i < |blocks| then Some(Carried(blocks[i])) else None)
  {
    if i < |blocks| {
      var deltas :| Spells(parsers, deltas, blocks[i]) && At(events, i) == Stripped(blocks[i], i, deltas);
      StrippedRevises(parsers, None, blocks[i], i, deltas);
    } else {
      NothingBeyond(events, |blocks|, i);
    }
  }

  /** Any fragmentation of each block and any interleaving of blocks decodes without a
      throw, to exactly the blocks as the protocol carries them, with no leftover JSON. */
  lemma Rebuilds(parsers: Parsers, events: seq<ProxyEvent>, blocks: seq<Content>)
    requires StripsAll(parsers, events, blocks)
    ensures var result := ProcessAll(parsers, NEW_DECODER, events);
            result.Ok? && result.value.partial == NEW_PARTIAL.(content := CarriedAll(blocks))
  {
    var d' := Decodes(parsers, events, blocks);
    OnlyContent(parsers, NEW_DECODER, events);
    ContentFits(parsers, NEW_DECODER, events, |blocks|);
    SameContent(d'.partial.content, blocks);
  }

  /** The blocks of a stripped message decode without a throw, each into itself. */
  lemma Decodes(parsers: Parsers, events: seq<ProxyEvent>, blocks: seq<Content>) returns (d': Decoder)
    requires StripsAll(parsers, events, blocks)
    ensures ProcessAll(parsers, NEW_DECODER, events) == Ok(d') && Separate(parsers, NEW_DECODER, events, d')
    ensures forall i: nat :: Get(d'.partial.content, i) == if i < |blocks| then Some(Carried(blocks[i])) else None
  {
    hide ReviseAll, StripsAll, At, ProcessAll;
    forall i: nat
      ensures ReviseAll(parsers, Get([], i), At(events, i)) ==
        Ok(if i < |blocks| then Some(Carried(blocks[i])) else None)
    {
      EveryBlockRevises(parsers, events, blocks, i);
    }
    BlocksAreSeparate(parsers, NEW_DECODER, events);
    d' := ProcessAll(parsers, NEW_DECODER, events).value;
    forall i: nat ensures Get(d'.partial.content, i) == if i < |blocks| then Some(Carried(blocks[i])) else None {
      assert ReviseAll(parsers, Get([], i), At(events, i)) == Ok(Get(d'.partial.content, i));
    }
  }

  lemma SameContent(content: seq<Option<Content>>, blocks: seq<Content>)
    requires |content| <= |blocks|
    requires forall i: nat :: Get(content, i) == if i < |blocks| then Some(Carried(blocks[i])) else None
    ensures content == CarriedAll(blocks)
  {
    if |content| < |blocks| {
      var beyond := Get(content, |content|);
    }
    forall i: nat | i < |content| ensures content[i] == CarriedAll(blocks)[i] {
      assert Get(content, i) == Some(Carried(blocks[i]));
    }
  }

  /** What the protocol cannot carry: the redaction mark and Google's thought signature. */
  predicate Carriable(block: Content) {
    (block.ThinkingContent? ==> !block.redacted) && (block.CallContent? ==> block.thoughtSignature.None?)
  }

  /** The content is these blocks, complete and unchanged. */
  ghost predicate Restores(content: seq<Option<Content>>, blocks: seq<Content>) {
    |content| == |blocks| && forall i | 0 <= i < |blocks| :: content[i] == Some(blocks[i])
  }

  lemma CarriedRestores(blocks: seq<Content>)
    ensures Restores(CarriedAll(blocks), blocks) <==> forall i | 0 <= i < |blocks| :: Carriable(blocks[i])
  {
    forall i | 0 <= i < |blocks| ensures CarriedAll(blocks)[i] == Some(blocks[i]) <==> Carriable(blocks[i]) {
    }
  }

  /** The original blocks come back unchanged exactly when no thinking is marked as redacted
      and no tool call bears a thought signature. */
  lemma RoundTrip(parsers: Parsers, events: seq<ProxyEvent>, blocks: seq<Content>)
    requires StripsAll(parsers, events, blocks)
    ensures ProcessAll(parsers, NEW_DECODER, events).Ok?
    ensures Restores(ProcessAll(parsers, NEW_DECODER, events).value.partial.content, blocks) <==>
            forall i | 0 <= i < |blocks| :: Carriable(blocks[i])
  {
    hide *;
    Rebuilds(parsers, events, blocks);
    CarriedRestores(blocks);
  }

  // ----- What is pushed

  lemma {:induction false} AtPrefix(events: seq<ProxyEvent>, k: nat, i: nat)
    requires k <= |events|
    ensures At(events[..k], i) <= At(events, i)
    decreases |events|
  {
    if k < |events| {
      AtPrefix(events[..|events| - 1], k, i);
      assert events[..|events| - 1][..k] == events[..k];
    } else {
      assert events[..k] == events;
    }
  }

  /** The three events that end a block. */
  predicate Ends(event: ProxyEvent) {
    event.TextEnd? || event.ThinkingEnd? || event.CallEnd?
  }

  lemma EndIsLast(block: Content, index: nat, deltas: seq<string>, own: seq<ProxyEvent>, last: ProxyEvent)
    requires own + [last] <= Stripped(block, index, deltas) && Ends(last)
    ensures last == Closing(block, index) && own == [Opening(block, index)] + Fragments(block, index, deltas)
  {
    var all, k := Stripped(block, index, deltas), |own|;
    assert all[k] == (own + [last])[k] == last;
    assert forall j | 0 < j <= |deltas| :: all[j] == Fragments(block, index, deltas)[j - 1];
    assert k == |deltas| + 1;
    assert own == all[..k];
  }

  /** The end of a tool call finds the tool call it ends. */
  lemma EndsItsCall(parsers: Parsers, events: seq<ProxyEvent>, blocks: seq<Content>, k: nat)
    requires StripsAll(parsers, events, blocks) && k < |events| && events[k].CallEnd?
    ensures var block := ReviseAll(parsers, None, At(events[..k], events[k].index));
            block.Ok? && block.value.Some? && block.value.value.CallContent?
  {
    var i := events[k].index;
    var block := blocks[i];
    var deltas :| Spells(parsers, deltas, block) && At(events, i) == Stripped(block, i, deltas);
    AtPrefix(events, k + 1, i);
    assert events[..k + 1][..k] == events[..k];
    EndIsLast(block, i, deltas, At(events[..k], i), events[k]);
    FragmentsGrow(parsers, None, block, i, deltas);
  }

  /** One update for each event, in order. */
  ghost predicate Echoes(pushed: seq<Update>, events: seq<ProxyEvent>) {
    |pushed| == |events| && forall k | 0 <= k < |events| :: pushed[k].Update? && pushed[k].event == events[k]
  }

  lemma {:induction false} PushesPrefix(parsers: Parsers, events: seq<ProxyEvent>, blocks: seq<Content>, n: nat)
    requires StripsAll(parsers, events, blocks) && n <= |events|
    ensures var result := ProcessAll(parsers, NEW_DECODER, events[..n]);
            result.Ok? && Echoes(result.value.pushed, events[..n])
  {
    if n > 0 {
      PushesPrefix(parsers, events, blocks, n - 1);
      PushesNext(parsers, events, blocks, n - 1);
    }
  }

  lemma PushesNext(parsers: Parsers, events: seq<ProxyEvent>, blocks: seq<Content>, n: nat)
    requires StripsAll(parsers, events, blocks) && n < |events|
    requires var result := ProcessAll(parsers, NEW_DECODER, events[..n]);
             result.Ok? && Echoes(result.value.pushed, events[..n])
    ensures var result := ProcessAll(parsers, NEW_DECODER, events[..n + 1]);
            result.Ok? && Echoes(result.value.pushed, events[..n + 1])
  {
    hide Process, StripsAll;
    var before := ReadyFor(parsers, events, blocks, n);
    assert events[..n + 1][..n] == events[..n];
    var update := PushesOne(parsers, before, events[n]);
  }

  /** Listeners get one update per event, in order. */
  lemma PushesInOrder(parsers: Parsers, events: seq<ProxyEvent>, blocks: seq<Content>)
    requires StripsAll(parsers, events, blocks)
    ensures ProcessAll(parsers, NEW_DECODER, events).Ok?
    ensures Echoes(ProcessAll(parsers, NEW_DECODER, events).value.pushed, events)
  {
    PushesPrefix(parsers, events, blocks, |events|);
    assert events[..|events|] == events;
  }

  /** Every event finds the decoder ready for it. */
  lemma ReadyFor(parsers: Parsers, events: seq<ProxyEvent>, blocks: seq<Content>, k: nat) returns (before: Decoder)
    requires StripsAll(parsers, events, blocks) && k < |events|
    ensures ProcessAll(parsers, NEW_DECODER, events[..k]) == Ok(before) && Process(parsers, before, events[k]).Ok?
    ensures !events[k].Unknown?
    ensures events[k].CallEnd? ==>
      var block := Get(before.partial.content, events[k].index); block.Some? && block.value.CallContent?
  {
    Rebuilds(parsers, events, blocks);
    PrefixOk(parsers, NEW_DECODER, events, k + 1);
    assert events[..k + 1][..k] == events[..k];
    before := ProcessAll(parsers, NEW_DECODER, events[..k]).value;
    if events[k].CallEnd? {
      var i := events[k].index;
      EndsItsCall(parsers, events, blocks, k);
      BlocksAreSeparate(parsers, NEW_DECODER, events[..k]);
      assert ReviseAll(parsers, Get([], i), At(events[..k], i)) == Ok(Get(before.partial.content, i));
    }
  }

  lemma {:induction false} PrefixOk(parsers: Parsers, d: Decoder, events: seq<ProxyEvent>, n: nat)
    requires ProcessAll(parsers, d, events).Ok? && n <= |events|
    ensures ProcessAll(parsers, d, events[..n]).Ok?
    decreases |events|
  {
    if n < |events| {
      PrefixOk(parsers, d, events[..|events| - 1], n);
      assert events[..|events| - 1][..n] == events[..n];
    } else {
      assert events[..n] == events;
    }
  }

  lemma PushesOne(parsers: Parsers, d: Decoder, event: ProxyEvent) returns (update: Update)
    requires Process(parsers, d, event).Ok? && !event.Unknown?
    requires event.CallEnd? ==>
      var block := Get(d.partial.content, event.index); block.Some? && block.value.CallContent?
    ensures Process(parsers, d, event).value.pushed == d.pushed + [update]
    ensures update.Update? && update.event == event
    ensures update.ended ==
      if Ends(event) then Get(Process(parsers, d, event).value.partial.content, event.index) else None
  {
    var pushed := Process(parsers, d, event).value.pushed;
    update := pushed[|pushed| - 1];
  }

  lemma ProcessAppends(parsers: Parsers, d: Decoder, event: ProxyEvent)
    requires Process(parsers, d, event).Ok?
    ensures d.pushed <= Process(parsers, d, event).value.pushed
  {
  }

  lemma {:induction false} PushedGrows(parsers: Parsers, d: Decoder, events: seq<ProxyEvent>, n: nat)
    requires ProcessAll(parsers, d, events).Ok? && n <= |events|
    ensures ProcessAll(parsers, d, events[..n]).Ok?
    ensures ProcessAll(parsers, d, events[..n]).value.pushed <= ProcessAll(parsers, d, events).value.pushed
    decreases |events|
  {
    hide Process;
    if n < |events| {
      var init := events[..|events| - 1];
      PushedGrows(parsers, d, init, n);
      assert init[..n] == events[..n];
      ProcessAppends(parsers, ProcessAll(parsers, d, init).value, events[|events| - 1]);
    } else {
      assert events[..n] == events;
    }
  }

  /** The update for the end of a block carries the block, whole; no other update carries one. */
  lemma EndedExact(parsers: Parsers, events: seq<ProxyEvent>, blocks: seq<Content>, k: nat)
    requires StripsAll(parsers, events, blocks) && k < |events|
    ensures ProcessAll(parsers, NEW_DECODER, events).Ok? && k < |ProcessAll(parsers, NEW_DECODER, events).value.pushed|
    ensures Ends(events[k]) ==> events[k].index < |blocks|
    ensures ProcessAll(parsers, NEW_DECODER, events).value.pushed[k] ==
      Update(events[k], if Ends(events[k]) then Some(Carried(blocks[events[k].index])) else None)
  {
    PushesInOrder(parsers, events, blocks);
    PushesPrefix(parsers, events, blocks, k);
    PushesPrefix(parsers, events, blocks, k + 1);
    var before := ReadyFor(parsers, events, blocks, k);
    assert events[..k + 1][..k] == events[..k];
    PushedGrows(parsers, NEW_DECODER, events, k + 1);
    if Ends(events[k]) {
      EndsWhole(parsers, events, blocks, k);
    }
    hide Process, StripsAll;
    var update := PushesOne(parsers, before, events[k]);
  }

  /** With its end a block is complete. */
  lemma EndsWhole(parsers: Parsers, events: seq<ProxyEvent>, blocks: seq<Content>, k: nat)
    requires StripsAll(parsers, events, blocks) && k < |events| && Ends(events[k])
    requires ProcessAll(parsers, NEW_DECODER, events[..k + 1]).Ok?
    ensures events[k].index < |blocks|
    ensures Get(ProcessAll(parsers, NEW_DECODER, events[..k + 1]).value.partial.content, events[k].index) ==
      Some(Carried(blocks[events[k].index]))
  {
    hide ProcessAll, ReviseAll, At, Stripped, Spells, Carried;
    var i, upTo := events[k].index, events[..k + 1];
    var deltas := OwnIsWhole(parsers, events, blocks, k);
    StrippedRevises(parsers, None, blocks[i], i, deltas);
    BlocksAreSeparate(parsers, NEW_DECODER, upTo);
    assert ReviseAll(parsers, Get([], i), At(upTo, i)) ==
      Ok(Get(ProcessAll(parsers, NEW_DECODER, upTo).value.partial.content, i));
  }

  lemma OwnIsWhole(parsers: Parsers, events: seq<ProxyEvent>, blocks: seq<Content>, k: nat)
    returns (deltas: seq<string>)
    requires StripsAll(parsers, events, blocks) && k < |events| && Ends(events[k])
    ensures var i := events[k].index;
            i < |blocks| && Spells(parsers, deltas, blocks[i])
              && At(events[..k + 1], i) == Stripped(blocks[i], i, deltas)
  {
    var i := events[k].index;
    assert Strips(parsers, At(events, i), i, blocks[i]);
    deltas :| Spells(parsers, deltas, blocks[i]) && At(events, i) == Stripped(blocks[i], i, deltas);
    AtPrefix(events, k + 1, i);
    AtNext(events, k, i);
    hide At, Spells, Stripped;
    EndIsLast(blocks[i], i, deltas, At(events[..k], i), events[k]);
    StrippedIs(blocks[i], i, deltas);
  }

  lemma AtNext(events: seq<ProxyEvent>, k: nat, i: nat)
    requires k < |events| && Concerns(events[k], i)
    ensures At(events[..k + 1], i) == At(events[..k], i) + [events[k]]
  {
    assert events[..k + 1][..k] == events[..k];
  }

  lemma StrippedIs(block: Content, index: nat, deltas: seq<string>)
    ensures Stripped(block, index, deltas) ==
      [Opening(block, index)] + Fragments(block, index, deltas) + [Closing(block, index)]
  {
  }

  // ----- Lines and arguments

  /** A line carries what stands behind `data: `, less the space around it; any other line
      carries nothing. */
  lemma PayloadExact(line: string, left: string, core: string, right: string)
    requires AllSpace(left) && AllSpace(right)
    requires core != "" ==> !IsSpace(core[0]) && !IsSpace(core[|core| - 1])
    ensures Payload("data: " + (left + core + right)) == core
    ensures (|line| < 6 || line[..6] != "data: ") ==> Payload(line) == ""
  {
    hide Trim, IsSpace;
    TrimExact(left, core, right);
    assert ("data: " + (left + core + right))[6..] == left + core + right;
  }

  /** The arguments of a tool call are parsed from what its deltas spell, and are an empty
      object if that is blank. */
  lemma ArgumentsExact(parsers: Parsers, block: Content, deltas: seq<string>)
    requires block.CallContent? && Spells(parsers, deltas, block)
    ensures block.arguments == if AllSpace(Concat(deltas)) then "{}" else parsers.streaming(Concat(deltas))
  {
    var text := Concat(deltas);
    BlankTrims(text);
    hide Trim;
  }

  lemma {:induction false} BlankTrims(text: string)
    ensures Trim(text) == "" <==> AllSpace(text)
  {
    if AllSpace(text) {
      assert text + "" + "" == text;
      TrimExact(text, "", "");
    } else {
      TrimKeeps(text);
    }
  }

  lemma TrimKeeps(text: string)
    requires !AllSpace(text)
    ensures Trim(text) != ""
  {
    hide IsSpace;
    StartKeeps(text);
    EndKeeps(TrimStart(text));
  }

  lemma {:induction false} StartKeeps(text: string)
    requires !AllSpace(text)
    ensures !AllSpace(TrimStart(text))
  {
    if IsSpace(text[0]) {
      StartKeeps(text[1..]);
    }
  }

  lemma {:induction false} EndKeeps(text: string)
    requires !AllSpace(text)
    ensures TrimEnd(text) != ""
  {
    if IsSpace(text[|text| - 1]) {
      EndKeeps(text[..|text| - 1]);
    }
  }

  // ----- Failures

  /** The kind of block an event continues or ends. */
  predicate Fits(event: ProxyEvent, block: Content)
    requires event.Indexed()
  {
    match event
    case TextDelta(_, _) => block.TextContent?
    case TextEnd(_, _) => block.TextContent?
    case ThinkingDelta(_, _) => block.ThinkingContent?
    case ThinkingEnd(_, _) => block.ThinkingContent?
    case CallDelta(_, _) => block.CallContent?
    case CallEnd(_) => block.CallContent?
    case _ => true
  }

  predicate Opens(event: ProxyEvent) {
    event.TextStart? || event.ThinkingStart? || event.CallStart?
  }

  /** An event throws exactly if it continues a block, or ends a text or a thought, that is
      not there or is of another kind. The end of a tool call that is not there does nothing. */
  lemma ThrowsExactly(parsers: Parsers, d: Decoder, event: ProxyEvent)
    ensures Process(parsers, d, event).Threw? <==>
      && event.Indexed() && !Opens(event) && !event.CallEnd?
      && (Get(d.partial.content, event.index).None? || !Fits(event, Get(d.partial.content, event.index).value))
    ensures (event.CallEnd? && (Get(d.partial.content, event.index).None? ||
                                !Fits(event, Get(d.partial.content, event.index).value))) ==>
        var next := Process(parsers, d, event);
        && next.Ok? && next.value.pushed == d.pushed && next.value.partial.stopReason == d.partial.stopReason
        && forall i: nat :: Get(next.value.partial.content, i) == Get(d.partial.content, i)
  {
    hide ParseStreamingJson;
  }

  /** How a response ends that is not closed by an event of its own: a throw is reported as an
      error with its text, an abort as aborted; both keep what was decoded. Without either
      nothing is reported. */
  lemma FailureReported(parsers: Parsers, text: string, aborted: bool)
    ensures var (decoded, result) := (DecodeLines(parsers, NEW_DECODER, Lines(text)), Received(parsers, text, aborted));
            var (before, after) := (decoded.decoder.partial, result.partial);
            && after.content == before.content && after.usage == before.usage
            && match decoded.thrown
               case Some(reason) =>
                 && after.stopReason == StopReason.Error && after.errorMessage == Some(reason)
                 && result.pushed == decoded.decoder.pushed + [Broken(StopReason.Error, reason)]
               case None =>
                 if aborted then
                   && after.stopReason == StopReason.Aborted && after.errorMessage == Some("Request aborted by user")
                   && result.pushed == decoded.decoder.pushed + [Broken(StopReason.Aborted, "Request aborted by user")]
                 else result == decoded.decoder
  {
    hide DecodeLines, Lines;
  }

  // ----- From text to message

  /** A line without an event, or with one of a type the decoder does not know. */
  predicate Blank(parsers: Parsers, line: string) {
    Payload(line) == "" || (parsers.event(Payload(line)).Ok? && parsers.event(Payload(line)).value.Unknown?)
  }

  /** The lines carry exactly these events; blank lines are allowed anywhere. */
  ghost predicate Carries(parsers: Parsers, lines: seq<string>, events: seq<ProxyEvent>) {
    if lines == [] then events == []
    else
      var init, last := lines[..|lines| - 1], lines[|lines| - 1];
      if Blank(parsers, last) then Carries(parsers, init, events)
      else
        && events != []
        && parsers.event(Payload(last)) == Ok(events[|events| - 1])
        && Carries(parsers, init, events[..|events| - 1])
  }

  lemma {:induction false} LinesDecode(parsers: Parsers, lines: seq<string>, events: seq<ProxyEvent>)
    requires Carries(parsers, lines, events) && ProcessAll(parsers, NEW_DECODER, events).Ok?
    ensures DecodeLines(parsers, NEW_DECODER, lines) == Decoded(ProcessAll(parsers, NEW_DECODER, events).value, None)
    decreases |lines|
  {
    if lines != [] {
      var init, last := lines[..|lines| - 1], lines[|lines| - 1];
      LinesDecode(parsers, init, if Blank(parsers, last) then events else events[..|events| - 1]);
    }
  }

  /** The two events that close a response, and what they make of the message. */
  predicate Closes(event: ProxyEvent) {
    event.Done? || event.Failed?
  }

  function Closed(partial: Partial, event: ProxyEvent): Partial
    requires Closes(event)
  {
    match event
    case Done(reason, usage) => partial.(stopReason := reason, usage := usage)
    case Failed(reason, errorMessage, usage) =>
      partial.(stopReason := reason, errorMessage := errorMessage, usage := usage)
  }

  lemma ClosedResponse(parsers: Parsers, events: seq<ProxyEvent>, blocks: seq<Content>, last: ProxyEvent)
    requires StripsAll(parsers, events, blocks) && Closes(last)
    ensures var result := ProcessAll(parsers, NEW_DECODER, events + [last]);
            && result.Ok?
            && result.value.partial == Closed(NEW_PARTIAL.(content := CarriedAll(blocks)), last)
            && Echoes(result.value.pushed, events + [last])
  {
    hide StripsAll, Concerns, CarriedAll;
    Rebuilds(parsers, events, blocks);
    PushesInOrder(parsers, events, blocks);
    assert (events + [last])[..|events|] == events;
  }

  /** A response text that carries a stripped message and its `done` or `error` event is
      received as that message, with nothing missing and nothing leftover. */
  lemma MessageReceived(parsers: Parsers, text: string, events: seq<ProxyEvent>, blocks: seq<Content>, last: ProxyEvent)
    requires StripsAll(parsers, events, blocks) && Closes(last)
    requires Carries(parsers, Lines(text), events + [last])
    ensures Received(parsers, text, false).partial == Closed(NEW_PARTIAL.(content := CarriedAll(blocks)), last)
    ensures Echoes(Received(parsers, text, false).pushed, events + [last])
  {
    hide StripsAll, Echoes;
    ClosedResponse(parsers, events, blocks, last);
    LinesDecode(parsers, Lines(text), events + [last]);
  }

  // ----- The last line

  /** What follows the last newline is never decoded, even if it is a complete event. */
  lemma TailIgnored(parsers: Parsers, text: string, tail: string, aborted: bool)
    requires '\n' !in tail
    ensures Received(parsers, text + tail, aborted) == Received(parsers, text, aborted)
  {
    LinesAppend(text, tail);
    NoNewlineInPieces(text);
    SplitPlain(Tail(text) + tail);
    assert Lines(text + tail) == Lines(text);
  }

  /** The promise of the final message is kept only by a closing event or an error report. */
  predicate Resolves(pushed: seq<Update>) {
    exists i | 0 <= i < |pushed| :: pushed[i].Broken? || Closes(pushed[i].event)
  }

  lemma OpenEvents(parsers: Parsers, events: seq<ProxyEvent>, blocks: seq<Content>, pushed: seq<Update>)
    requires StripsAll(parsers, events, blocks) && Echoes(pushed, events)
    ensures !Resolves(pushed)
  {
  }

  lemma ClosedResolves(pushed: seq<Update>, events: seq<ProxyEvent>, last: ProxyEvent)
    requires Echoes(pushed, events + [last]) && Closes(last)
    ensures Resolves(pushed)
  {
    assert (events + [last])[|events|] == last;
  }

  lemma CarriedByLines(parsers: Parsers, text: string, events: seq<ProxyEvent>, last: ProxyEvent)
    requires Carries(parsers, Split(text), events + [last])
    ensures Carries(parsers, Lines(text), if Blank(parsers, Tail(text)) then events + [last] else events)
  {
    hide Split, Blank;
    assert (events + [last])[..|events|] == events;
  }

  /** When all pieces of a text, its last line included, carry a closed response, every event
      of it is decoded exactly if the last line carries none, as when the text ends with a
      newline; otherwise whoever waits for the final message waits forever. */
  lemma AllEventsDecoded(parsers: Parsers, text: string, events: seq<ProxyEvent>, blocks: seq<Content>,
                         last: ProxyEvent)
    requires StripsAll(parsers, events, blocks) && Closes(last)
    requires Carries(parsers, Split(text), events + [last])
    ensures Echoes(Received(parsers, text, false).pushed, events + [last]) <==> Blank(parsers, Tail(text))
    ensures Resolves(Received(parsers, text, false).pushed) <==> Blank(parsers, Tail(text))
  {
    hide StripsAll, Blank, Carries, Resolves;
    CarriedByLines(parsers, text, events, last);
    if Blank(parsers, Tail(text)) {
      MessageReceived(parsers, text, events, blocks, last);
      ClosedResolves(Received(parsers, text, false).pushed, events, last);
    } else {
      Rebuilds(parsers, events, blocks);
      PushesInOrder(parsers, events, blocks);
      LinesDecode(parsers, Lines(text), events);
      OpenEvents(parsers, events, blocks, Received(parsers, text, false).pushed);
    }
  }

  /** For instance a response that consists of its `done` event without a newline: nothing is
      decoded, nothing is reported as an error, and the final message never comes. */
  lemma LastLineLost(parsers: Parsers, payload: string, last: ProxyEvent)
    requires '\n' !in payload && Trim(payload) == payload != "" && parsers.event(payload) == Ok(last) && Closes(last)
    ensures Payload("data: " + payload) == payload
    ensures Received(parsers, "data: " + payload, false) == NEW_DECODER && !Resolves(NEW_DECODER.pushed)
    ensures Received(parsers, "data: " + payload + "\n", false).pushed == [Update(last, None)]
  {
    hide Trim, Split, DecodeLines, Process;
    var line := "data: " + payload;
    PayloadOf(payload);
    assert '\n' !in line;
    NoLines(line);
    TailIgnored(parsers, "", line, false);
    OneLine(parsers, line, last);
  }

  lemma PayloadOf(payload: string)
    requires Trim(payload) == payload
    ensures Payload("data: " + payload) == payload && '\n' !in "data: "
  {
    hide Trim;
    assert ("data: " + payload)[6..] == payload;
  }

  lemma NoLines(line: string)
    requires '\n' !in line
    ensures "" + line == line && Lines("") == [] && Lines(line + "\n") == [line]
    ensures forall parsers :: DecodeLines(parsers, NEW_DECODER, []) == Decoded(NEW_DECODER, None)
  {
    SplitLine(line, "");
    assert line + "\n" + "" == line + "\n";
  }

  lemma OneLine(parsers: Parsers, line: string, last: ProxyEvent)
    requires Payload(line) != "" && parsers.event(Payload(line)) == Ok(last) && Closes(last)
    ensures Conclude(DecodeLines(parsers, NEW_DECODER, [line])).pushed == [Update(last, None)]
  {
    hide Payload;
    assert [line][..0] == [];
  }

  // ----- What the protocol drops

  lemma AtOwn(events: seq<ProxyEvent>, index: nat)
    requires forall i | 0 <= i < |events| :: Concerns(events[i], index)
    ensures At(events, index) == events
  {
    if events != [] {
      AtOwn(events[..|events| - 1], index);
    }
  }

  lemma OneBlock(parsers: Parsers, block: Content, deltas: seq<string>)
    requires Spells(parsers, deltas, block)
    ensures StripsAll(parsers, Stripped(block, 0, deltas), [block])
  {
    AtOwn(Stripped(block, 0, deltas), 0);
  }

  /** A redacted thought comes back unmarked, and a tool call without its signature. */
  lemma MarksLost(parsers: Parsers, thought: Content, call: Content)
    requires thought == ThinkingContent("", None, true)
    requires call == CallContent("id", "read", EMPTY_OBJECT, Some("signature"), None)
    ensures StripsAll(parsers, Stripped(thought, 0, []), [thought]) && StripsAll(parsers, Stripped(call, 0, []), [call])
    ensures ProcessAll(parsers, NEW_DECODER, Stripped(thought, 0, [])).Ok?
    ensures ProcessAll(parsers, NEW_DECODER, Stripped(thought, 0, [])).value.partial.content ==
      [Some(ThinkingContent("", None, false))]
    ensures ProcessAll(parsers, NEW_DECODER, Stripped(call, 0, [])).Ok?
    ensures ProcessAll(parsers, NEW_DECODER, Stripped(call, 0, [])).value.partial.content ==
            [Some(CallContent("id", "read", EMPTY_OBJECT, None, None))]
  {
    hide StripsAll, ProcessAll, Stripped;
    assert Spells(parsers, [], thought) && Spells(parsers, [], call);
    OneBlock(parsers, thought, []);
    OneBlock(parsers, call, []);
    Rebuilds(parsers, Stripped(thought, 0, []), [thought]);
    Rebuilds(parsers, Stripped(call, 0, []), [call]);
  }
}
