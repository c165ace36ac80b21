/** The marker tables of the source meet the conditions the chunking laws rely on. */
module MarkerTable {
  import opened Text
  import opened StreamParser
  import opened UncleanStreams
  import C = CleanStreams

  predicate Differ(m: Marker, n: Marker, k: nat) {
    k < |m| && k < |n| && m[k] != n[k]
  }

  /** The first places where two of the markers may differ. */
  predicate Apart(m: Marker, n: Marker) {
    m == n || Differ(m, n, 1) || Differ(m, n, 2) || Differ(m, n, 3) || Differ(m, n, 4) || Differ(m, n, 10) ||
        Differ(m, n, 11)
  }

  lemma OpenersApart(m: Marker, n: Marker)
    requires m in Openers(MARKERS) && n in Openers(MARKERS)
    ensures Apart(m, n)
  {
  }

  lemma TextChannelApart(n: Marker)
    requires n in Openers(MARKERS)
    ensures Apart(MARKERS.textChannel[0], n) && Apart(n, MARKERS.textChannel[0])
  {
  }

  lemma ThoughtEndsApart(m: Marker, n: Marker)
    requires m in MARKERS.thoughtEnds && n in MARKERS.thoughtEnds
    ensures Apart(m, n)
  {
  }

  lemma ThoughtEndFromOpener(m: Marker, n: Marker)
    requires m in MARKERS.thoughtEnds && n in Openers(MARKERS)
    ensures Apart(m, n)
  {
  }

  lemma ToolEndsApart(m: Marker, n: Marker)
    requires m in MARKERS.toolEnds && n in MARKERS.toolEnds
    ensures Apart(m, n)
  {
  }

  lemma ToolEndFromOpener(m: Marker, n: Marker)
    requires m in MARKERS.toolEnds && n in Openers(MARKERS)
    ensures Apart(m, n)
  {
  }

  lemma TextEnds(m: Marker)
    requires m in Ends(MARKERS, InText)
    ensures m in Openers(MARKERS) || m == MARKERS.textChannel[0]
  {
  }

  lemma ApartItself(m: Marker)
    ensures Apart(m, m)
  {
  }

  lemma ApartSwap(m: Marker, n: Marker)
    requires Apart(m, n)
    ensures Apart(n, m)
  {
  }

  lemma EndsApart(st: ParserState, m: Marker, n: Marker)
    requires m in Ends(MARKERS, st) && n in Ends(MARKERS, st) + Openers(MARKERS)
    ensures Apart(m, n) && Apart(n, m)
  {
    hide Openers, Apart;
    match st {
      case InText =>
        TextEnds(m);
        if n in Ends(MARKERS, InText) {
          TextEnds(n);
        }
        if m !in Openers(MARKERS) && n in Openers(MARKERS) {
          TextChannelApart(n);
        } else if m in Openers(MARKERS) && n !in Openers(MARKERS) {
          TextChannelApart(m);
        } else if m in Openers(MARKERS) {
          OpenersApart(m, n);
        } else {
          ApartItself(m);
        }
      case InThought =>
        if n in MARKERS.thoughtEnds {
          ThoughtEndsApart(m, n);
        } else {
          ThoughtEndFromOpener(m, n);
        }
      case InToolCall =>
        if n in MARKERS.toolEnds {
          ToolEndsApart(m, n);
        } else {
          ToolEndFromOpener(m, n);
        }
    }
    ApartSwap(m, n);
  }

  lemma ApartIsNoPrefix(m: Marker, n: Marker)
    requires Apart(m, n) && m <= n
    ensures m == n
  {
  }

  lemma MarkersPrefixFree(st: ParserState)
    ensures PrefixFree(Ends(MARKERS, st) + Openers(MARKERS))
  {
    hide Apart, Ends, Openers;
    forall m, n | m in Ends(MARKERS, st) + Openers(MARKERS) && n in Ends(MARKERS, st) + Openers(MARKERS) && m <= n
      ensures m == n
    {
      if m in Ends(MARKERS, st) {
        EndsApart(st, m, n);
      } else if n in Ends(MARKERS, st) {
        EndsApart(st, n, m);
      } else {
        OpenersApart(m, n);
      }
      ApartIsNoPrefix(m, n);
    }
  }

  lemma EndsAreNotOpeners(st: ParserState, m: Marker)
    requires st != InText && m in Ends(MARKERS, st)
    ensures m !in Openers(MARKERS)
  {
  }

  lemma BeginsWithout(q: Marker, c: nat, ends: seq<Marker>, k: nat)
    requires k < |ends| && 1 <= c < |q| <= |ends[k]| && q[..|q| - 1] == ends[k][..|q| - 1]
    ensures BeginsAnEnd(q, c, ends)
  {
    assert q[..c] == q[..|q| - 1][..c] == ends[k][..c];
    assert ends[k] in ends;
  }

  /** Inside a tool call an unfinished tool opener is always held back. */
  lemma ToolOpenersHeldBack(q: Marker, c: nat)
    requires q in MARKERS.toolStarts && 1 <= c < |q|
    ensures BeginsAnEnd(q, c, MARKERS.toolEnds)
  {
    hide BeginsAnEnd;
    var starts, ends := MARKERS.toolStarts, MARKERS.toolEnds;
    assert starts == ["<|tool_call>", "<tool_call>"] && ends[0] == "<tool_call|>" && ends[1] == "<|tool_call|>";
    if q == starts[0] {
      assert q[..|q| - 1] == "<|tool_call" && ends[1][..|q| - 1] == "<|tool_call";
      BeginsWithout(q, c, ends, 1);
    } else {
      assert q[..|q| - 1] == "<tool_call" && ends[0][..|q| - 1] == "<tool_call";
      BeginsWithout(q, c, ends, 0);
    }
  }

  /** The beginning of `q` departs from every end marker within `c` characters. */
  lemma Unseen(q: Marker, c: nat, ends: seq<Marker>)
    requires 1 <= c < |q|
    requires forall e | e in ends :: exists k: nat | k < c :: Differ(q, e, k)
    ensures CutsUnseen(q, c, ends)
  {
    forall e | e in ends
      ensures !(q[..c] <= e)
    {
      var k: nat :| k < c && Differ(q, e, k);
      assert q[..c][k] == q[k];
    }
  }

  lemma OpenersUnseenInThought(q: Marker)
    requires q in Openers(MARKERS)
    ensures exists c :: CutsUnseen(q, c, MARKERS.thoughtEnds)
  {
    var c := if q == MARKERS.thoughtStarts[0] then 12 else 3;
    forall e | e in MARKERS.thoughtEnds
      ensures exists k: nat | k < c :: Differ(q, e, k)
    {
      assert Differ(q, e, 1) || Differ(q, e, 2) || (c == 12 && Differ(q, e, 11));
    }
    Unseen(q, c, MARKERS.thoughtEnds);
  }

  lemma ThoughtOpenersUnseenInTool(q: Marker)
    requires q in MARKERS.thoughtStarts
    ensures exists c :: CutsUnseen(q, c, MARKERS.toolEnds)
  {
    forall e | e in MARKERS.toolEnds
      ensures exists k: nat | k < 3 :: Differ(q, e, k)
    {
      assert Differ(q, e, 1) || Differ(q, e, 2);
    }
    Unseen(q, 3, MARKERS.toolEnds);
  }

  lemma MarkersWellFormed()
    ensures WellFormed(MARKERS)
  {
    hide Ends, Openers, PrefixFree, CutsUnseen, BeginsAnEnd;
    forall st ensures PrefixFree(Ends(MARKERS, st) + Openers(MARKERS)) { MarkersPrefixFree(st); }
    forall st, m | st != InText && m in Ends(MARKERS, st) ensures m !in Openers(MARKERS) { EndsAreNotOpeners(st, m); }
    forall q: Marker, c: nat | q in MARKERS.toolStarts && 1 <= c < |q|
      ensures BeginsAnEnd(q, c, MARKERS.toolEnds)
    {
      ToolOpenersHeldBack(q, c);
    }
    forall q | q in Openers(MARKERS)
      ensures exists c :: CutsUnseen(q, c, MARKERS.thoughtEnds)
    {
      OpenersUnseenInThought(q);
    }
    forall q | q in MARKERS.thoughtStarts
      ensures exists c :: CutsUnseen(q, c, MARKERS.toolEnds)
    {
      ThoughtOpenersUnseenInTool(q);
    }
  }

  /** So with the markers of the source a stream may be cut anywhere if and only if it is clean. */
  lemma CutAnywhereIffClean(st: ParserState, w: string)
    ensures ChunkIndependent(MARKERS, st, w) <==> C.Clean(MARKERS, st, w)
  {
    MarkersWellFormed();
    ChunkIndependentIffClean(MARKERS, st, w);
  }
}
