/** The plain-text export of the conversation buffer. */
module Transcripts {
  import opened Wrappers
  import opened Messages

  /** Blank line between two paragraphs. */
  const Separator: string := "\n\n"

  /** Shown for a record without a timestamp. */
  const UnknownStamp: string := "unknown"

  /** Display name of the user. */
  const UserLabel: string := "You"

  /** Display name of every other role. */
  const AssistantLabel: string := "People Team AI"

  function Speaker(role: string): string {
    if role == UserRole then UserLabel else AssistantLabel
  }

  /** The paragraph of one record: `<label> (<timestamp or unknown>): <content>`. */
  function Paragraph(m: Message): (p: string)
    ensures m.role == "user" ==> p == "You (" + m.timestamp.GetOr("unknown") + "): " + m.content
    ensures m.role != "user" ==> p == "People Team AI (" + m.timestamp.GetOr("unknown") + "): " + m.content
  {
    Speaker(m.role) + " (" + m.timestamp.GetOr(UnknownStamp) + "): " + m.content
  }

  /** The label at the head of a paragraph tells whether it is the user's. */
  lemma ParagraphSpeaker(m: Message)
    ensures "You (" <= Paragraph(m) <==> m.role == "user"
    ensures "People Team AI (" <= Paragraph(m) <==> m.role != "user"
  {
    var p := Paragraph(m);
    if m.role == "user" {
      assert p[0] == 'Y';
      assert !("People Team AI (" <= p);
    } else {
      assert p[0] == 'P';
      assert !("You (" <= p);
    }
  }

  /** Python's `sep.join(parts)`. */
  function Join(sep: string, parts: seq<string>): string {
    if |parts| == 0 then ""
    else if |parts| == 1 then parts[0]
    else parts[0] + sep + Join(sep, parts[1..])
  }

  /**
   * The joined text is empty for no parts; otherwise it starts with the
   * first part and ends with the last, with no separator at either end.
   */
  lemma {:induction false} JoinEnds(sep: string, parts: seq<string>)
    ensures parts == [] ==> Join(sep, parts) == ""
    ensures parts != [] ==> parts[0] <= Join(sep, parts)
    ensures parts != [] ==>
      var r, last := Join(sep, parts), parts[|parts| - 1];
      |last| <= |r| && r[|r| - |last|..] == last
    decreases |parts|
  {
    if |parts| > 1 {
      JoinEnds(sep, parts[1..]);
      assert parts[1..][|parts[1..]| - 1] == parts[|parts| - 1];
    }
  }

  /** Joining two non-empty lists puts exactly one separator between them. */
  lemma {:induction false} JoinConcat(sep: string, a: seq<string>, b: seq<string>)
    requires a != [] && b != []
    ensures Join(sep, a + b) == Join(sep, a) + sep + Join(sep, b)
    decreases |a|
  {
    if |a| == 1 {
      assert (a + b)[1..] == b;
    } else {
      assert (a + b)[1..] == a[1..] + b;
      JoinConcat(sep, a[1..], b);
    }
  }

  /** The list comprehension: one paragraph per record, in buffer order. */
  function Paragraphs(ms: seq<Message>): (ps: seq<string>)
    ensures |ps| == |ms|
    ensures forall i | 0 <= i < |ms| :: ps[i] == Paragraph(ms[i])
  {
    seq(|ms|, i requires 0 <= i < |ms| => Paragraph(ms[i]))
  }

  /** The text export of the buffer `ms`. */
  function Transcript(ms: seq<Message>): (t: string)
    ensures t == "" <==> ms == []
  {
    var t := Join(Separator, Paragraphs(ms));
    assert ms != [] ==> t[0] == Paragraph(ms[0])[0];
    t
  }

  lemma ParagraphsConcat(ms1: seq<Message>, ms2: seq<Message>)
    ensures Paragraphs(ms1 + ms2) == Paragraphs(ms1) + Paragraphs(ms2)
  {
  }

  /** The transcript of two buffers laid end to end, separated once. */
  lemma TranscriptConcat(ms1: seq<Message>, ms2: seq<Message>)
    requires ms1 != [] && ms2 != []
    ensures Transcript(ms1 + ms2) == Transcript(ms1) + Separator + Transcript(ms2)
  {
    ParagraphsConcat(ms1, ms2);
    JoinConcat(Separator, Paragraphs(ms1), Paragraphs(ms2));
  }

  /**
   * Appending a record to the buffer adds its paragraph at the end of the
   * transcript, after a separator unless it is the first record.
   */
  lemma TranscriptAppend(ms: seq<Message>, m: Message)
    ensures Transcript(ms + [m]) ==
      if ms == [] then Paragraph(m) else Transcript(ms) + Separator + Paragraph(m)
  {
    if ms == [] {
      assert ms + [m] == [m];
    } else {
      TranscriptConcat(ms, [m]);
    }
  }

  /** A non-empty buffer's transcript starts with its first paragraph, and is only that for one record. */
  lemma TranscriptHead(ms: seq<Message>)
    requires ms != []
    ensures Paragraph(ms[0]) <= Transcript(ms)
    ensures |ms| == 1 ==> Transcript(ms) == Paragraph(ms[0])
  {
  }

  /** Where the paragraph of record `i` starts in the transcript. */
  function ParagraphStart(ms: seq<Message>, i: nat): nat
    requires i <= |ms|
  {
    if i == 0 then 0 else |Transcript(ms[..i])| + |Separator|
  }

  /**
   * Record `i` appears as its own paragraph at offset `ParagraphStart`,
   * preceded by a separator unless it is the first, and the last
   * paragraph ends the text: no leading or trailing separator.
   */
  lemma TranscriptParagraphAt(ms: seq<Message>, i: nat)
    requires i < |ms|
    ensures var start := ParagraphStart(ms, i);
      var t := Transcript(ms);
      && start + |Paragraph(ms[i])| <= |t|
      && t[start..start + |Paragraph(ms[i])|] == Paragraph(ms[i])
      && (i > 0 ==> t[start - |Separator|..start] == Separator)
      && (i == |ms| - 1 ==> start + |Paragraph(ms[i])| == |t|)
  {
    var p := Paragraph(ms[i]);
    var tail := ms[i..];
    var tt := Transcript(tail);
    TranscriptHead(tail);
    assert tail[0] == ms[i];
    if i > 0 {
      var head := ms[..i];
      assert ms == head + tail;
      TranscriptConcat(head, tail);
      var start := |Transcript(head)| + |Separator|;
      assert Transcript(ms) == Transcript(head) + Separator + tt;
      assert Transcript(ms)[start..start + |p|] == tt[..|p|];
    } else {
      assert tail == ms;
    }
  }

  /** The text export of one answered turn: two paragraphs and one blank line. */
  method ExampleTranscript()
  {
    var q := Message(UserRole, "PTO?", Some("t1"));
    var a := Message(AssistantRole, "15 days.", Some("t2"));
    var pq, pa := "You (t1): PTO?", "People Team AI (t2): 15 days.";
    assert Paragraph(q) == pq by { assert Speaker(q.role) == UserLabel; }
    assert Paragraph(a) == pa by { assert Speaker(a.role) == AssistantLabel; }
    assert Transcript([q, a]) == pq + Separator + pa by {
      TranscriptAppend([], q);
      TranscriptAppend([q], a);
      assert [q] + [a] == [q, a];
    }
  }
}
