/** What the bridge reads out of an inbound message (message.ts). */
module WeixinMessage {
  import opened Prelude
  import opened WeixinState

  datatype Part =
    | Text(text: string, quote: seq<string>, reference: Option<string>)
    | VoiceTranscript(text: string)
    | Picture(image: Option<Image>)
    | Voice
    | Other

  /** `decoded` tells whether the raw message fits the schema; the fields after it are read
      only then. */
  datatype Message = Message(
    id: Id,
    decoded: bool,
    messageType: int,
    fromUserId: Option<string>,
    contextToken: string,
    parts: seq<Part>)

  function PromptLines(parts: seq<Part>): seq<string> {
    if parts == [] then []
    else
      (match parts[0]
       case Text(text, quote, _) =>
         [if quote != [] then "[引用: " + Join(quote, " | ") + "]\n" + text else text]
       case VoiceTranscript(text) => [text]
       case _ => [])
      + PromptLines(parts[1..])
  }

  /** `renderInboundPrompt`, lines 103-110. */
  function Prompt(m: Message): Option<string> {
    var lines := PromptLines(m.parts);
    if lines == [] then None else Some(Join(lines, "\n"))
  }

  function References(parts: seq<Part>): seq<string> {
    if parts == [] then []
    else
      (if parts[0].Text? && parts[0].reference.Some? && parts[0].reference.value != ""
       then [parts[0].reference.value] else [])
      + References(parts[1..])
  }

  /** The first message that the text refers to, lines 94-99. */
  function Reference(m: Message): Option<string> {
    var references := References(m.parts);
    if references == [] then None else Some(references[0])
  }

  predicate HasBrokenPicture(m: Message) {
    exists i | 0 <= i < |m.parts| :: m.parts[i].Picture? && m.parts[i].image.None?
  }

  function PicturesOf(parts: seq<Part>): seq<Image> {
    if parts == [] then []
    else (if parts[0].Picture? && parts[0].image.Some? then [parts[0].image.value] else []) + PicturesOf(parts[1..])
  }

  function Pictures(m: Message): seq<Image> { PicturesOf(m.parts) }

  // ----- what these say about the parts -----

  lemma {:induction false} LinesJoin(parts: seq<Part>, more: seq<Part>)
    ensures PromptLines(parts + more) == PromptLines(parts) + PromptLines(more)
    decreases |parts|
  {
    var all := parts + more;
    if parts == [] {
      assert all == more;
    } else {
      assert all[0] == parts[0] && all[1..] == parts[1..] + more;
      LinesJoin(parts[1..], more);
    }
  }

  lemma {:induction false} PicturesJoin(parts: seq<Part>, more: seq<Part>)
    ensures PicturesOf(parts + more) == PicturesOf(parts) + PicturesOf(more)
    decreases |parts|
  {
    var all := parts + more;
    if parts == [] {
      assert all == more;
    } else {
      assert all[0] == parts[0] && all[1..] == parts[1..] + more;
      PicturesJoin(parts[1..], more);
    }
  }

  lemma {:induction false} ReferencesJoin(parts: seq<Part>, more: seq<Part>)
    ensures References(parts + more) == References(parts) + References(more)
    decreases |parts|
  {
    var all := parts + more;
    if parts == [] {
      assert all == more;
    } else {
      assert all[0] == parts[0] && all[1..] == parts[1..] + more;
      ReferencesJoin(parts[1..], more);
    }
  }

  /** Parts contribute in their order, and one does not change what the others contribute. */
  lemma PartByPart(parts: seq<Part>, more: seq<Part>)
    ensures PromptLines(parts + more) == PromptLines(parts) + PromptLines(more)
    ensures PicturesOf(parts + more) == PicturesOf(parts) + PicturesOf(more)
    ensures References(parts + more) == References(parts) + References(more)
  {
    LinesJoin(parts, more);
    PicturesJoin(parts, more);
    ReferencesJoin(parts, more);
  }

  /** What each kind of part contributes. */
  lemma OnePart(part: Part)
    ensures PromptLines([part]) ==
      match part
      case Text(text, quote, _) =>
        if quote == [] then [text] else ["[引用: " + Join(quote, " | ") + "]\n" + text]
      case VoiceTranscript(text) => [text]
      case Picture(_) => []
      case Voice => []
      case Other => []
    ensures PicturesOf([part]) == if part.Picture? && part.image.Some? then [part.image.value] else []
    ensures forall id :: References([part]) == [id] <==> part.Text? && part.reference == Some(id) && id != ""
    ensures |References([part])| <= 1
  {
    assert [part][1..] == [];
  }

  lemma {:induction false} NoText(parts: seq<Part>)
    ensures PromptLines(parts) == [] <==> forall i | 0 <= i < |parts| :: !parts[i].Text? && !parts[i].VoiceTranscript?
    decreases |parts|
  {
    if parts != [] {
      NoText(parts[1..]);
      assert forall i | 0 < i < |parts| :: parts[i] == parts[1..][i - 1];
    }
  }

  /** There is a prompt exactly if some part has text. */
  lemma PromptNeedsText(m: Message)
    ensures Prompt(m).None? <==> forall i | 0 <= i < |m.parts| :: !m.parts[i].Text? && !m.parts[i].VoiceTranscript?
    ensures Prompt(m).Some? ==> Prompt(m).value == Join(PromptLines(m.parts), "\n")
  {
    NoText(m.parts);
  }

  /** A message refers to what its first text part with a reference refers to. */
  lemma FirstReference(m: Message, before: seq<Part>, part: Part, after: seq<Part>, id: string)
    requires m.parts == before + [part] + after && References(before) == []
    requires part.Text? && part.reference == Some(id) && id != ""
    ensures Reference(m) == Some(id)
  {
    PartByPart(before, [part]);
    PartByPart(before + [part], after);
    OnePart(part);
  }

  /** A message of the account's own user that the bridge looks into. */
  predicate Eligible(m: Message, auth: Auth) {
    m.decoded && m.messageType == 1 && m.fromUserId == Some(auth.userId)
  }
}
