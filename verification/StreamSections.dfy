/** What was written between markers is shown as what it is: text as text, thoughts as
    thoughts and calls as calls, however the stream arrives. */
module StreamSections {
  import opened Text
  import opened StreamParser
  import opened StreamChunking
  import opened CleanStreams
  import MarkerTable
  import RequestTask
  import ToolCallGrammar

  /** Text up to a marker, and what the marker opens. */
  datatype Section =
    | Thought(before: string, open: Marker, inside: string, close: Marker)
    | Call(before: string, open: Marker, inside: string, close: Marker)
    | Channel(before: string, marker: Marker)

  function Written(s: Section): string {
    match s
    case Thought(before, open, inside, close) => before + (open + (inside + close))
    case Call(before, open, inside, close) => before + (open + (inside + close))
    case Channel(before, marker) => before + marker
  }

  function AllWritten(sections: seq<Section>, last: string): string {
    if sections == [] then last else Written(sections[0]) + AllWritten(sections[1..], last)
  }

  /** The markers are those of the dialect, and no text holds one that would end or open something there. */
  ghost predicate Proper(d: Dialect, s: Section) {
    && Plain(d, s.before)
    && match s
       case Thought(_, open, inside, close) =>
         open in d.thoughtStarts && close in d.thoughtEnds && Absent(inside, d.thoughtEnds) &&
         Absent(inside, d.thoughtStarts + d.toolStarts)
       case Call(_, open, inside, close) =>
         open in d.toolStarts && close in d.toolEnds && Absent(inside, d.toolEnds) &&
         Absent(inside, d.thoughtStarts + d.toolStarts)
       case Channel(_, marker) => marker in d.textChannel && marker !in d.thoughtStarts + d.toolStarts
  }

  ghost predicate Plain(d: Dialect, text: string) {
    Absent(text, d.thoughtStarts + d.toolStarts + d.textChannel)
  }

  function Meant(s: Section): seq<(BlockType, char)> {
    match s
    case Thought(before, _, inside, _) => Tag(TextBlock, before) + Tag(ThoughtBlock, inside)
    case Call(before, _, inside, _) => Tag(TextBlock, before) + Tag(FormulatingBlock, inside)
    case Channel(before, _) => Tag(TextBlock, before)
  }

  function AllMeant(sections: seq<Section>): seq<(BlockType, char)> {
    if sections == [] then [] else Meant(sections[0]) + AllMeant(sections[1..])
  }

  // ----- one marker ------------------------------------------------------------------------------------

  lemma MarkerAfter(x: string, m: Marker, rest: string, ms: seq<Marker>)
    requires PrefixFree(ms) && m in ms && Absent(x, ms)
    ensures Earliest(x + (m + rest), ms) == Some(Hit(|x|, m))
  {
    hide Earliest, PrefixFree;
    var w := x + (m + rest);
    assert w[|x|..|x| + |m|] == m && w[|x|] == '<';
    forall n, k: nat | n in ms && k < |x| ensures !OccursAt(w, n, k) {
      if OccursAt(w, n, k) {
        NoOverlap(w, n, k, |x|);
        OccursInPrefix(x, m + rest, n, k);
      }
    }
    EarliestIs(w, ms, |x|, m);
  }

  /** One marker is consumed, with what stands before it shown in the block of the state. */
  lemma OneMarker(d: Dialect, st: ParserState, x: string, m: Marker, rest: string)
    requires WellFormed(d) && m in Ends(d, st) && Absent(x, Ends(d, st))
    requires st != InText ==> Absent(x, Openers(d))
    ensures var o, p := Scan(LexStep(d), st, x + (m + rest)), Scan(LexStep(d), NextAfterEnd(d, st, m), rest);
            && Shown(o.trace) == Tag(BlockOf(st), x) + Shown(p.trace) && o.state == p.state && o.retained == p.retained
    ensures Clean(d, NextAfterEnd(d, st, m), rest) ==> Clean(d, st, x + (m + rest))
  {
    hide Scan, Earliest, WellFormed, Ends, NextAfterEnd;
    var w := x + (m + rest);
    EndsPrefixFree(d, st);
    MarkerAfter(x, m, rest, Ends(d, st));
    assert w[..|x|] == x && w[|x| + |m|..] == rest;
    ScanShows(LexStep(d), st, w, |x|, m, NextAfterEnd(d, st, m));
    NothingMisplaced(d, st, x);
  }

  lemma NothingMisplaced(d: Dialect, st: ParserState, x: string)
    requires st != InText ==> Absent(x, Openers(d))
    ensures SegmentClean(d, st, x)
  {
  }

  lemma Opens(d: Dialect, m: Marker)
    requires WellFormed(d)
    ensures m in d.thoughtStarts ==> m in Ends(d, InText) && NextAfterEnd(d, InText, m) == InThought
    ensures m in d.toolStarts ==> m in Ends(d, InText) && NextAfterEnd(d, InText, m) == InToolCall
    ensures m in d.textChannel && m !in Openers(d) ==> m in Ends(d, InText) && NextAfterEnd(d, InText, m) == InText
  {
  }

  // ----- sections ------------------------------------------------------------------------------------------

  lemma OneSection(d: Dialect, s: Section, rest: string)
    requires WellFormed(d) && Proper(d, s)
    ensures var o, p := Scan(LexStep(d), InText, Written(s) + rest), Scan(LexStep(d), InText, rest);
            && Shown(o.trace) == Meant(s) + Shown(p.trace) && o.state == p.state && o.retained == p.retained
    ensures Clean(d, InText, rest) ==> Clean(d, InText, Written(s) + rest)
  {
    hide WellFormed, Scan, Absent, Clean, NextAfterEnd, LexStep;
    match s {
      case Channel(before, marker) =>
        Opens(d, marker);
        OneMarker(d, InText, before, marker, rest);
        ConcatAssociates(before, marker, rest);
      case Thought(before, open, inside, close) =>
        Opens(d, open);
        OneMarker(d, InText, before, open, inside + (close + rest));
        OneMarker(d, InThought, inside, close, rest);
        Regroup(before, open, inside, close, rest);
        ConcatAssociates(Tag(TextBlock, before), Tag(ThoughtBlock, inside),
                         Shown(Scan(LexStep(d), InText, rest).trace));
        assert NextAfterEnd(d, InThought, close) == InText by { Closes(d, InThought, close); }
      case Call(before, open, inside, close) =>
        Opens(d, open);
        OneMarker(d, InText, before, open, inside + (close + rest));
        OneMarker(d, InToolCall, inside, close, rest);
        Regroup(before, open, inside, close, rest);
        ConcatAssociates(Tag(TextBlock, before), Tag(FormulatingBlock, inside),
                         Shown(Scan(LexStep(d), InText, rest).trace));
        assert NextAfterEnd(d, InToolCall, close) == InText by { Closes(d, InToolCall, close); }
    }
  }

  lemma Closes(d: Dialect, st: ParserState, m: Marker)
    requires st != InText
    ensures NextAfterEnd(d, st, m) == InText
  {
  }

  lemma Regroup(a: string, b: string, c: string, e: string, f: string)
    ensures a + (b + (c + e)) + f == a + (b + (c + (e + f)))
  {
  }

  lemma LastText(d: Dialect, last: string)
    requires Plain(d, last)
    ensures var o, at := Scan(LexStep(d), InText, last), PartialStart(last, Ends(d, InText));
            Shown(o.trace) == Tag(TextBlock, last[..at]) && o.state == InText && o.retained == last[at..]
    ensures Clean(d, InText, last)
  {
    var ms := Ends(d, InText);
    AbsentIs(last, ms);
    NothingMisplaced(d, InText, last);
    if last != "" {
      ScanHolds(LexStep(d), InText, last, PartialStart(last, ms));
    } else {
      assert last[..0] == "" && last[0..] == "";
    }
  }

  lemma {:induction false} SectionsScan(d: Dialect, sections: seq<Section>, last: string)
    requires WellFormed(d) && (forall s | s in sections :: Proper(d, s)) && Plain(d, last)
    ensures var o, at := Scan(LexStep(d), InText, AllWritten(sections, last)), PartialStart(last, Ends(d, InText));
            && Shown(o.trace) == AllMeant(sections) + Tag(TextBlock, last[..at])
            && o.state == InText && o.retained == last[at..]
    ensures Clean(d, InText, AllWritten(sections, last))
    decreases |sections|
  {
    hide WellFormed, Proper, Plain, Scan, Clean, Written, Meant, LexStep;
    var tail := Tag(TextBlock, last[..PartialStart(last, Ends(d, InText))]);
    if sections == [] {
      LastText(d, last);
      assert [] + tail == tail;
    } else {
      assert sections[0] in sections && forall s | s in sections[1..] :: s in sections;
      OneSection(d, sections[0], AllWritten(sections[1..], last));
      SectionsScan(d, sections[1..], last);
      ConcatAssociates(Meant(sections[0]), AllMeant(sections[1..]), tail);
    }
  }

  lemma NothingKept(d: Dialect, st: ParserState)
    ensures Kept(d, st, "")
  {
  }

  /** Whatever chunks a stream of sections arrives in, each section is shown as what it is,
      and only a tail of the last text that begins a marker is still held back. */
  lemma SectionsShow(d: Dialect, sections: seq<Section>, last: string, chunks: seq<string>)
    requires WellFormed(d) && (forall s | s in sections :: Proper(d, s)) && Plain(d, last)
    requires Joined(chunks) == AllWritten(sections, last)
    ensures var o, at := Run(StepOf(d), InText, "", chunks), PartialStart(last, Ends(d, InText));
            && Shown(o.trace) == AllMeant(sections) + Tag(TextBlock, last[..at])
            && o.state == InText && o.retained == last[at..]
  {
    hide WellFormed, Proper, Plain, Scan, Clean, Run, Kept, AllWritten, AllMeant, Joined, Ends;
    NothingKept(d, InText);
    SectionsScan(d, sections, last);
    assert "" + Joined(chunks) == Joined(chunks);
    CleanRunIsOneCall(d, InText, "", chunks);
  }

  /** The same for a stream that begins inside a thought, as it does in the mode whose replies do. */
  lemma ThoughtThenSectionsShow(d: Dialect, inside: string, close: Marker, sections: seq<Section>, last: string,
                                chunks: seq<string>)
    requires WellFormed(d) && (forall s | s in sections :: Proper(d, s)) && Plain(d, last)
    requires close in d.thoughtEnds && Absent(inside, d.thoughtEnds) && Absent(inside, d.thoughtStarts + d.toolStarts)
    requires Joined(chunks) == inside + (close + AllWritten(sections, last))
    ensures var o, at := Run(StepOf(d), InThought, "", chunks), PartialStart(last, Ends(d, InText));
            && Shown(o.trace) == Tag(ThoughtBlock, inside) + (AllMeant(sections) + Tag(TextBlock, last[..at]))
            && o.state == InText && o.retained == last[at..]
  {
    hide WellFormed, Proper, Plain, Scan, Clean, Run, Absent, Kept, AllWritten, AllMeant, Joined, NextAfterEnd;
    NothingKept(d, InThought);
    SectionsScan(d, sections, last);
    Closes(d, InThought, close);
    OneMarker(d, InThought, inside, close, AllWritten(sections, last));
    assert "" + Joined(chunks) == Joined(chunks);
    CleanRunIsOneCall(d, InThought, "", chunks);
  }

  // ----- the markers of the source ------------------------------------------------------------------------

  /** What a request task frames as a thought the parser shows as a thought, and what follows as text. */
  lemma FramedThoughtShows(inside: string, text: string, chunks: seq<string>)
    requires Absent("\n" + inside, MARKERS.thoughtEnds) && Plain(MARKERS, "\n" + text)
    requires Absent("\n" + inside, MARKERS.thoughtStarts + MARKERS.toolStarts)
    requires Joined(chunks) == RequestTask.OPEN_THINK + inside + (RequestTask.CLOSE_THINK + text)
    ensures var o, at := Run(StepOf(MARKERS), InText, "", chunks), PartialStart("\n" + text, Ends(MARKERS, InText));
            && Shown(o.trace) == Tag(ThoughtBlock, "\n" + inside) + Tag(TextBlock, ("\n" + text)[..at])
            && o.state == InText
  {
    hide WellFormed, Scan, Clean, Run, Absent, MARKERS, AllWritten, AllMeant, Joined, Ends;
    var s := Thought("", "<think>", "\n" + inside, "</think>");
    MarkerTable.MarkersWellFormed();
    Framed(inside, text);
    Alone(s, "\n" + text);
    ThinkMarkers();
    SectionsShow(MARKERS, [s], "\n" + text, chunks);
    assert Tag(TextBlock, "") + Tag(ThoughtBlock, "\n" + inside) == Tag(ThoughtBlock, "\n" + inside);
  }

  lemma Framed(inside: string, text: string)
    ensures Written(Thought("", "<think>", "\n" + inside, "</think>")) + ("\n" + text) ==
            RequestTask.OPEN_THINK + inside + (RequestTask.CLOSE_THINK + text)
  {
    hide Written, RequestTask.OPEN_THINK, RequestTask.CLOSE_THINK;
    var open: string, close: string := "<think>", "</think>";
    assert RequestTask.OPEN_THINK == open + "\n" && RequestTask.CLOSE_THINK == close + "\n" by { Tags(); }
    assert Written(Thought("", "<think>", "\n" + inside, "</think>")) == "" + (open + ("\n" + inside + close)) by {
      WrittenThought("\n" + inside);
    }
    Reframe(open, "\n", inside, close, text);
  }

  lemma Tags()
    ensures RequestTask.OPEN_THINK == "<think>" + "\n" && RequestTask.CLOSE_THINK == "</think>" + "\n"
  {
  }

  lemma WrittenThought(inside: string)
    ensures Written(Thought("", "<think>", inside, "</think>")) == "" + ("<think>" + (inside + "</think>"))
  {
  }

  lemma Reframe(open: string, feed: string, inside: string, close: string, text: string)
    ensures "" + (open + (feed + inside + close)) + (feed + text) == open + feed + inside + (close + feed + text)
  {
  }

  lemma Alone(s: Section, last: string)
    ensures AllWritten([s], last) == Written(s) + last && AllMeant([s]) == Meant(s)
  {
    assert [s][1..] == [] && Meant(s) + [] == Meant(s);
  }

  lemma ThinkMarkers()
    ensures "<think>" in MARKERS.thoughtStarts && "</think>" in MARKERS.thoughtEnds && Plain(MARKERS, "")
  {
    assert MARKERS.thoughtStarts[2] == "<think>" && MARKERS.thoughtEnds[2] == "</think>";
  }

  /** The tokens calls are searched by are markers of the stream, so what the search reads was
      shown as a call; and the marker that is ignored in text is the one that leads to it from a thought. */
  lemma SameTokens()
    ensures ToolCallGrammar.CALL_STARTS == MARKERS.toolStarts
    ensures forall t | t in ToolCallGrammar.CALL_ENDS :: t in MARKERS.toolEnds
    ensures forall t | t in MARKERS.textChannel :: t in MARKERS.thoughtEnds
  {
    assert MARKERS.toolEnds[0] == "<tool_call|>" && MARKERS.toolEnds[2] == "</tool_call>" &&
           MARKERS.toolEnds[1] == "<|tool_call|>" && MARKERS.thoughtEnds[3] == "<|channel>text";
  }
}
