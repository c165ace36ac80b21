/** The envelope a tool result is stored in, and reading its fields back. */
module ToolResults {
  import opened Text

  const OPENING := "<|tool_response>response:"
  const DELIMITER: Marker := "<|'|>"
  const ID_LABEL := ",tool_call_id:"
  const RESULT_PREFIX := "result:" + DELIMITER
  const ID_SEPARATOR := DELIMITER + ID_LABEL + DELIMITER
  const CLOSING := "}<tool_response|><turn|>"

  function Envelope(name: string, payload: string, id: string): string {
    OPENING + name + "{" + RESULT_PREFIX + payload + ID_SEPARATOR + id + DELIMITER + CLOSING
  }

  datatype Fields = Fields(id: string, payload: string)

  /** The payload runs from the first result prefix to the last separator. */
  function ExtractFields(content: string): Option<Fields> {
    var prefix := Find(content, RESULT_PREFIX);
    var separator := RFind(content, ID_SEPARATOR);
    if prefix.None? || separator.None? || separator.value < prefix.value + |RESULT_PREFIX| then None
    else
      var idStart := separator.value + |ID_SEPARATOR|;
      var idEnd := Find(content[idStart..], DELIMITER);
      if idEnd.None? then None
      else Some(Fields(content[idStart..idStart + idEnd.value],
          content[prefix.value + |RESULT_PREFIX|..separator.value]))
  }

  predicate CleanName(name: string) {
    !Contains(name, RESULT_PREFIX)
  }

  /** An identifier that no envelope cuts short or hides. */
  predicate CleanId(id: string) {
    !Contains(id, DELIMITER) && id != ID_LABEL
  }

  // ----- the prefix --------------------------------------------------------------

  lemma PrefixShape()
    ensures |RESULT_PREFIX| == 12 && RESULT_PREFIX[0] == 'r' && RESULT_PREFIX[3] == 'u'
    ensures forall k | 1 <= k < 12 :: RESULT_PREFIX[k] != 'r'
    ensures forall k | 0 <= k < 12 :: RESULT_PREFIX[k] != '{'
    ensures |OPENING| == 25 && forall k | 0 <= k < 25 && OPENING[k] == 'r' :: k + 3 < 25 && OPENING[k + 3] == 'p'
  {
  }

  lemma PrefixInName(name: string, rest: string, k: nat)
    requires k < |OPENING + name + "{"|
    requires rest != "" && rest[0] == 'r'
    ensures OccursAt(OPENING + name + "{" + rest, RESULT_PREFIX, k) <==>
            |OPENING| <= k && OccursAt(name, RESULT_PREFIX, k - |OPENING|)
  {
    hide RESULT_PREFIX, OPENING;
    PrefixShape();
    var head, w := OPENING + name, OPENING + name + "{" + rest;
    assert w == head + ("{" + rest);
    assert w[|head|] == '{' && w[|head| + 1] == 'r';
    assert forall i | 0 <= i < |OPENING| :: w[i] == OPENING[i];
    if OccursAt(w, RESULT_PREFIX, k) {
      if k + 12 > |head| {
        EndsBefore(w, k, |head|);
      }
      OccursInPrefix(head, "{" + rest, RESULT_PREFIX, k);
      OccursChar(w, RESULT_PREFIX, k, 0);
      OccursChar(w, RESULT_PREFIX, k, 3);
      if k >= |OPENING| {
        OccursInSuffix(OPENING, name, RESULT_PREFIX, k - |OPENING|);
      }
    }
    if |OPENING| <= k && OccursAt(name, RESULT_PREFIX, k - |OPENING|) {
      OccursInSuffix(OPENING, name, RESULT_PREFIX, k - |OPENING|);
      OccursInPrefix(head, "{" + rest, RESULT_PREFIX, k);
    }
  }

  lemma EndsBefore(w: string, k: nat, brace: nat)
    requires OccursAt(w, RESULT_PREFIX, k) && k <= brace && brace + 1 < |w| && w[brace] == '{' && w[brace + 1] == 'r'
    ensures k + 12 <= brace
  {
    PrefixShape();
    if k + 12 > brace {
      OccursChar(w, RESULT_PREFIX, k, brace - k);
    }
  }

  // ----- the separator -----------------------------------------------------------

  lemma SeparatorShape()
    ensures |DELIMITER| == 5 && |ID_LABEL| == 14 && |ID_SEPARATOR| == 24 && |CLOSING| == 24
    ensures DELIMITER[0] == '<' && forall k | 0 <= k < 14 :: ID_LABEL[k] != '<'
    ensures ID_LABEL[0] == ',' && CLOSING[0] == '}'
    ensures ID_SEPARATOR[..5] == DELIMITER && ID_SEPARATOR[5..19] == ID_LABEL && ID_SEPARATOR[19..] == DELIMITER
    ensures ID_SEPARATOR[5] == ','
  {
  }

  lemma ClosingShape(j: nat)
    ensures !OccursAt(CLOSING, DELIMITER, j)
  {
    assert |CLOSING| == 24;
    assert DELIMITER[2] == '\'';
    if OccursAt(CLOSING, DELIMITER, j) {
      OccursChar(CLOSING, DELIMITER, j, 2);
    }
  }

  /** What follows the payload. */
  function Tail(id: string): string {
    ID_SEPARATOR + id + DELIMITER + CLOSING
  }

  /** Delimiters after the label: those of the identifier and the one that closes it. */
  lemma DelimitersAfterLabel(id: string, j: nat)
    ensures OccursAt(id + DELIMITER + CLOSING, DELIMITER, j) <==> OccursAt(id, DELIMITER, j) || j == |id|
  {
    var w := id + DELIMITER + CLOSING;
    assert w == id + (DELIMITER + CLOSING);
    SeparatorShape();
    assert w[|id|] == '<' && w[|id|..|id| + 5] == DELIMITER;
    assert forall i | |id| <= i < |id| + 5 :: w[i] == DELIMITER[i - |id|];
    if j < |id| {
      if OccursAt(w, DELIMITER, j) {
        NoOverlap(w, DELIMITER, j, |id|);
      }
      OccursInPrefix(id, DELIMITER + CLOSING, DELIMITER, j);
    } else if j > |id| {
      if OccursAt(w, DELIMITER, j) {
        OccursChar(w, DELIMITER, j, 0);
        OccursInSuffix(id + DELIMITER, CLOSING, DELIMITER, j - |id| - 5);
        ClosingShape(j - |id| - 5);
      }
    }
  }

  lemma SeparatorParts(w: string, j: nat)
    ensures OccursAt(w, ID_SEPARATOR, j) <==>
            j + 24 <= |w| && OccursAt(w, DELIMITER, j) && w[j + 5..j + 19] == ID_LABEL && OccursAt(w, DELIMITER, j + 19)
  {
    hide ID_SEPARATOR, ID_LABEL, DELIMITER;
    SeparatorShape();
    if j + 24 <= |w| {
      var x := w[j..j + 24];
      assert x[..5] == w[j..j + 5] && x[5..19] == w[j + 5..j + 19] && x[19..] == w[j + 19..j + 24];
      assert x == x[..5] + x[5..19] + x[19..];
      assert ID_SEPARATOR == ID_SEPARATOR[..5] + ID_SEPARATOR[5..19] + ID_SEPARATOR[19..];
    }
  }

  /** A separator after the intended one hides in the identifier, or is made of the end of
      the intended one and an identifier that is the label itself. */
  lemma LaterSeparator(id: string, j: nat)
    requires 0 < j && OccursAt(Tail(id), ID_SEPARATOR, j)
    ensures Contains(id, DELIMITER) || id == ID_LABEL
  {
    hide ID_SEPARATOR, DELIMITER, CLOSING, ID_LABEL;
    SeparatorShape();
    var w, after := Tail(id), id + DELIMITER + CLOSING;
    assert w == ID_SEPARATOR + after;
    SeparatorParts(w, j);
    if !Contains(id, DELIMITER) {
      TailDelimiters(id, j);
      TailDelimiters(id, j + 19);
      assert w[j + 5] == w[j + 5..j + 19][0];
      assert w[24 + |id| + 5] == after[|id| + 5] == CLOSING[0];
      assert w[24..24 + |id|] == id;
    }
  }

  lemma TailDelimiters(id: string, j: nat)
    requires !Contains(id, DELIMITER) && OccursAt(Tail(id), DELIMITER, j)
    ensures j == 0 || j == 19 || j == 24 + |id|
  {
    hide ID_SEPARATOR, CLOSING, ID_LABEL, DELIMITER;
    SeparatorShape();
    var w, after := Tail(id), id + DELIMITER + CLOSING;
    assert w == ID_SEPARATOR + after;
    OccursChar(w, DELIMITER, j, 0);
    if j >= 24 {
      OccursInSuffix(ID_SEPARATOR, after, DELIMITER, j - 24);
      DelimitersAfterLabel(id, j - 24);
    } else {
      assert w[j] == ID_SEPARATOR[j];
      SeparatorOpens(j);
    }
  }

  lemma SeparatorOpens(j: nat)
    requires j < 24 && ID_SEPARATOR[j] == '<'
    ensures j == 0 || j == 19
  {
  }

  // ----- round trips -----------------------------------------------------------------

  function Head(name: string): string {
    OPENING + name + "{"
  }

  lemma EnvelopeParts(name: string, payload: string, id: string)
    ensures Envelope(name, payload, id) == Head(name) + RESULT_PREFIX + payload + Tail(id)
  {
    hide OPENING, RESULT_PREFIX, ID_SEPARATOR, CLOSING;
    var front := OPENING + name + "{" + RESULT_PREFIX + payload;
    ConcatAssociates(front, ID_SEPARATOR, id);
    ConcatAssociates(front, ID_SEPARATOR + id, DELIMITER);
    ConcatAssociates(front, ID_SEPARATOR + id + DELIMITER, CLOSING);
  }

  /** The first result prefix is the intended one exactly when the name has none. */
  lemma PrefixFound(name: string, payload: string, id: string)
    ensures var p := Find(Envelope(name, payload, id), RESULT_PREFIX);
            p.Some? && p.value <= |Head(name)| && (p.value == |Head(name)| <==> CleanName(name))
  {
    hide OPENING, ID_SEPARATOR, CLOSING, RESULT_PREFIX;
    PrefixShape();
    EnvelopeParts(name, payload, id);
    var w, rest := Envelope(name, payload, id), RESULT_PREFIX + payload + Tail(id);
    assert w == Head(name) + rest;
    assert w[|Head(name)|..|Head(name)| + 12] == RESULT_PREFIX;
    assert OccursAt(w, RESULT_PREFIX, |Head(name)|);
    forall k: nat | k < |Head(name)|
      ensures OccursAt(w, RESULT_PREFIX, k) <==> |OPENING| <= k && OccursAt(name, RESULT_PREFIX, k - |OPENING|)
    {
      PrefixInName(name, rest, k);
    }
    if Contains(name, RESULT_PREFIX) {
      var k := Find(name, RESULT_PREFIX).value;
      assert OccursAt(w, RESULT_PREFIX, |OPENING| + k);
    }
  }

  /** Where the intended separator stands. */
  function SeparatorAt(name: string, payload: string): nat {
    |Head(name)| + |RESULT_PREFIX| + |payload|
  }

  lemma SeparatorFound(name: string, payload: string, id: string)
    ensures var s := RFind(Envelope(name, payload, id), ID_SEPARATOR);
            && s.Some? && s.value >= SeparatorAt(name, payload)
            && (s.value > SeparatorAt(name, payload) ==> Contains(id, DELIMITER) || id == ID_LABEL)
  {
    hide OPENING, ID_SEPARATOR, CLOSING, RESULT_PREFIX, ID_LABEL;
    SeparatorShape();
    EnvelopeParts(name, payload, id);
    var w, front := Envelope(name, payload, id), Head(name) + RESULT_PREFIX + payload;
    assert w == front + Tail(id);
    assert w[|front|..|front| + 24] == ID_SEPARATOR;
    assert OccursAt(w, ID_SEPARATOR, |front|);
    var s := RFind(w, ID_SEPARATOR).value;
    if s > |front| {
      OccursInSuffix(front, Tail(id), ID_SEPARATOR, s - |front|);
      LaterSeparator(id, s - |front|);
    }
  }

  lemma DelimiterInside(id: string, i: nat)
    requires i <= |id|
    ensures var end := Find(id[i..] + DELIMITER + CLOSING, DELIMITER);
            && end.Some? && end.value <= |id| - i
            && (end.value == |id| - i <==> !Contains(id[i..], DELIMITER))
  {
    hide CLOSING, DELIMITER;
    var x := id[i..];
    var w := x + DELIMITER + CLOSING;
    DelimitersAfterLabel(x, |x|);
    var end := Find(w, DELIMITER).value;
    DelimitersAfterLabel(x, end);
    if Contains(x, DELIMITER) {
      var k := Find(x, DELIMITER).value;
      DelimitersAfterLabel(x, k);
    }
  }

  /** A field read from further on is shorter than the identifier, or is not found. */
  lemma DelimiterLater(id: string, d: nat)
    requires 0 < d <= |id + DELIMITER + CLOSING|
    ensures var end := Find((id + DELIMITER + CLOSING)[d..], DELIMITER); end.Some? ==> end.value < |id|
  {
    hide CLOSING, DELIMITER;
    var after := id + DELIMITER + CLOSING;
    var end := Find(after[d..], DELIMITER);
    if end.Some? {
      assert after == after[..d] + after[d..];
      OccursInSuffix(after[..d], after[d..], DELIMITER, end.value);
      DelimitersAfterLabel(id, d + end.value);
    }
  }

  /** An identifier that is the label itself makes a later separator. */
  lemma LabelHides(name: string, payload: string)
    ensures var s := RFind(Envelope(name, payload, ID_LABEL), ID_SEPARATOR);
           s.Some? &&
           s.value > SeparatorAt(name, payload)
  {
    hide OPENING, ID_SEPARATOR, CLOSING, RESULT_PREFIX, ID_LABEL, DELIMITER;
    SeparatorShape();
    EnvelopeParts(name, payload, ID_LABEL);
    var w, front, after := Envelope(name, payload, ID_LABEL), Head(name) + RESULT_PREFIX + payload,
        ID_LABEL + DELIMITER + CLOSING;
    assert w == front + ID_SEPARATOR + after;
    assert w[|front|..|front| + 24] == ID_SEPARATOR && w[|front| + 24..] == after;
    assert after[14..19] == DELIMITER && after[..14] == ID_LABEL;
    LabelThenDelimiter(w, |front|, after, 14);
    SeparatorFound(name, payload, ID_LABEL);
  }

  /** Reading with the separator at `s`, the identifier is what stands before the next delimiter. */
  lemma ReadsAt(w: string, p: nat, s: nat)
    requires Find(w, RESULT_PREFIX) == Some(p) && RFind(w, ID_SEPARATOR) == Some(s) && p + |RESULT_PREFIX| <= s
    ensures var rest := w[s + |ID_SEPARATOR|..]; var end := Find(rest, DELIMITER);
            && ExtractFields(w).Some? == end.Some?
            && (end.Some? ==> ExtractFields(w).value == Fields(rest[..end.value], w[p + |RESULT_PREFIX|..s]))
  {
    hide ID_SEPARATOR, DELIMITER, RESULT_PREFIX;
    var rest := w[s + |ID_SEPARATOR|..];
    var end := Find(rest, DELIMITER);
    if end.Some? {
      assert rest[..end.value] == w[s + |ID_SEPARATOR|..s + |ID_SEPARATOR| + end.value];
    }
  }

  lemma AfterSeparator(name: string, payload: string, id: string)
    ensures var s, w := RFind(Envelope(name, payload, id), ID_SEPARATOR), Envelope(name, payload, id);
            && s.Some? && SeparatorAt(name, payload) <= s.value <= |w| - |ID_SEPARATOR|
            && s.value - SeparatorAt(name, payload) <= |id + DELIMITER + CLOSING|
            && w[s.value + |ID_SEPARATOR|..] == (id + DELIMITER + CLOSING)[s.value - SeparatorAt(name, payload)..]
  {
    hide OPENING, ID_SEPARATOR, CLOSING, RESULT_PREFIX, ID_LABEL, DELIMITER;
    SeparatorShape();
    SeparatorFound(name, payload, id);
    EnvelopeParts(name, payload, id);
    var front, after := Head(name) + RESULT_PREFIX + payload, id + DELIMITER + CLOSING;
    assert Tail(id) == ID_SEPARATOR + after;
    ConcatAssociates(front, ID_SEPARATOR, after);
    DropFront(front + ID_SEPARATOR, after, RFind(Envelope(name, payload, id), ID_SEPARATOR).value - |front|);
  }

  lemma DropFront(front: string, after: string, d: nat)
    requires d <= |after|
    ensures (front + after)[|front| + d..] == after[d..]
  {
  }

  lemma ReadsId(name: string, payload: string, id: string)
    ensures var s, after := RFind(Envelope(name, payload, id), ID_SEPARATOR), id + DELIMITER + CLOSING;
            && s.Some? && SeparatorAt(name, payload) <= s.value && s.value - SeparatorAt(name, payload) <= |after|
            && var end := Find(after[s.value - SeparatorAt(name, payload)..], DELIMITER);
               && ExtractFields(Envelope(name, payload, id)).Some? == end.Some?
               && (end.Some? ==> ExtractFields(Envelope(name, payload, id)).value.id ==
                                 after[s.value - SeparatorAt(name, payload)..][..end.value])
  {
    hide ExtractFields, Envelope, ID_SEPARATOR, CLOSING, RESULT_PREFIX, DELIMITER;
    PrefixFound(name, payload, id);
    AfterSeparator(name, payload, id);
    var w := Envelope(name, payload, id);
    ReadsAt(w, Find(w, RESULT_PREFIX).value, RFind(w, ID_SEPARATOR).value);
  }

  /** The identifier is read back if and only if it is clean, whatever name and payload. */
  lemma IdRoundTripsIff(name: string, payload: string, id: string)
    ensures var f := ExtractFields(Envelope(name, payload, id));
            (f.Some? && f.value.id == id) <==> CleanId(id)
  {
    hide ExtractFields, Envelope, ID_SEPARATOR, CLOSING, ID_LABEL, DELIMITER;
    SeparatorFound(name, payload, id);
    ReadsId(name, payload, id);
    LabelHides(name, payload);
    var d: nat, after := RFind(Envelope(name, payload, id), ID_SEPARATOR).value - SeparatorAt(name, payload),
        id + DELIMITER + CLOSING;
    if d == 0 {
      assert after[0..] == after && id[0..] == id;
      DelimiterInside(id, 0);
      assert after[..|id|] == id;
    } else {
      DelimiterLater(id, d);
    }
  }

  /** A result is read back as it was stored, payload and all, if and only if the name
      holds no result prefix and the identifier is clean. */
  lemma RoundTripsIff(name: string, payload: string, id: string)
    ensures ExtractFields(Envelope(name, payload, id)) == Some(Fields(id, payload)) <==> CleanName(name) && CleanId(id)
  {
    hide OPENING, ID_SEPARATOR, CLOSING, RESULT_PREFIX, ID_LABEL, DELIMITER;
    IdRoundTripsIff(name, payload, id);
    PrefixFound(name, payload, id);
    SeparatorFound(name, payload, id);
    SeparatorShape();
    PrefixShape();
    EnvelopeParts(name, payload, id);
    var w := Envelope(name, payload, id);
    assert w == Head(name) + RESULT_PREFIX + payload + Tail(id);
    assert w[|Head(name)| + 12..SeparatorAt(name, payload)] == payload;
  }

  /** No content at all reads back as an identifier that is not clean. */
  lemma OnlyCleanIdsAreRead(content: string)
    ensures var f := ExtractFields(content); f.Some? ==> CleanId(f.value.id)
  {
    hide ID_SEPARATOR, ID_LABEL, DELIMITER, RESULT_PREFIX;
    SeparatorShape();
    var f := ExtractFields(content);
    if f.Some? {
      var s := RFind(content, ID_SEPARATOR).value;
      var rest := content[s + 24..];
      var end := Find(rest, DELIMITER).value;
      var id := rest[..end];
      assert f.value.id == id;
      forall k: nat
        ensures !OccursAt(id, DELIMITER, k)
      {
        assert rest == id + rest[end..];
        OccursInPrefix(id, rest[end..], DELIMITER, k);
      }
      assert Find(id, DELIMITER).None?;
      if id == ID_LABEL {
        LabelThenDelimiter(content, s, rest, end);
      }
    }
  }

  /** The label between two delimiters makes a later separator. */
  lemma LabelThenDelimiter(content: string, s: nat, rest: string, end: nat)
    requires OccursAt(content, ID_SEPARATOR, s) && rest == content[s + |ID_SEPARATOR|..]
    requires OccursAt(rest, DELIMITER, end) && rest[..end] == ID_LABEL
    ensures OccursAt(content, ID_SEPARATOR, s + 19)
  {
    hide ID_SEPARATOR, ID_LABEL, DELIMITER;
    SeparatorShape();
    SeparatorParts(content, s);
    SeparatorParts(content, s + 19);
    assert content[s + 24..s + 38] == rest[..14];
    assert content[s + 38..s + 43] == rest[14..19];
  }
}
