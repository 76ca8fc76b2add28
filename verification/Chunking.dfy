// Cutting one event into chunks (app/context/chunking.py:89-160).
module Chunking {

  const CHUNK_TARGET_CHARS: nat := 1000
  const CHUNK_MAX_CHARS: nat := 1600
  const MAX_CHUNKS_PER_EVENT: nat := 200

  // White space, for both `\s` and str.strip.
  predicate IsSpace(c: char) {
    '\t' <= c <= '\r' || '\U{1C}' <= c <= ' ' || c == '\U{85}' || c == '\U{A0}' || c == '\U{1680}'
        || '\U{2000}' <= c <= '\U{200A}'
    || c == '\U{2028}' || c == '\U{2029}' || c == '\U{202F}' || c == '\U{205F}' || c == '\U{3000}'
  }

  // The sequence of non-white characters: the text that must not be lost.
  function Ink(s: string): string {
    if s == "" then "" else Ink(s[..|s| - 1]) + (if IsSpace(s[|s| - 1]) then "" else [s[|s| - 1]])
  }

  function InkOf(chunks: seq<string>): string {
    if chunks == [] then "" else InkOf(chunks[..|chunks| - 1]) + Ink(chunks[|chunks| - 1])
  }

  lemma {:induction false} InkAppend(a: string, b: string)
    ensures Ink(a + b) == Ink(a) + Ink(b)
  {
    if b == "" {
      assert a + b == a;
    } else {
      InkAppend(a, b[..|b| - 1]);
      assert (a + b)[..|a + b| - 1] == a + b[..|b| - 1];
    }
  }

  lemma {:induction false} InkOfAppend(a: seq<string>, b: seq<string>)
    ensures InkOf(a + b) == InkOf(a) + InkOf(b)
  {
    if b == [] {
      assert a + b == a;
    } else {
      var n := |b| - 1;
      InkOfAppend(a, b[..n]);
      assert a + b == (a + b[..n]) + [b[n]];
      InkOfOne(a + b[..n], b[n]);
      Regroup(InkOf(a), InkOf(b[..n]), Ink(b[n]));
    }
  }

  lemma InkOfOne(a: seq<string>, c: string)
    ensures InkOf(a + [c]) == InkOf(a) + Ink(c)
  {
    assert (a + [c])[..|a|] == a;
  }

  lemma InkOfFirst(c: string, a: seq<string>)
    ensures InkOf([c] + a) == Ink(c) + InkOf(a)
  {
    InkOfAppend([c], a);
    InkOfOne([], c);
    assert [] + [c] == [c] && "" + Ink(c) == Ink(c);
  }

  lemma Regroup(a: string, b: string, c: string)
    ensures (a + b) + c == a + (b + c)
  {
  }

  function Lstrip(s: string): string {
    if s != "" && IsSpace(s[0]) then Lstrip(s[1..]) else s
  }

  function Rstrip(s: string): string {
    if s != "" && IsSpace(s[|s| - 1]) then Rstrip(s[..|s| - 1]) else s
  }

  function Strip(s: string): string {
    Rstrip(Lstrip(s))
  }

  lemma {:induction false} LstripInk(s: string)
    ensures Ink(Lstrip(s)) == Ink(s) && |Lstrip(s)| <= |s| && (Lstrip(s) != "" ==> !IsSpace(Lstrip(s)[0]))
  {
    if s != "" && IsSpace(s[0]) {
      LstripInk(s[1..]);
      assert s == [s[0]] + s[1..];
      InkAppend([s[0]], s[1..]);
      assert Ink([s[0]]) == Ink("") + "";
    }
  }

  lemma {:induction false} RstripInk(s: string)
    ensures Ink(Rstrip(s)) == Ink(s) && |Rstrip(s)| <= |s| && Rstrip(s) <= s
    ensures Rstrip(s) != "" ==> !IsSpace(Rstrip(s)[|Rstrip(s)| - 1])
  {
    if s != "" && IsSpace(s[|s| - 1]) {
      RstripInk(s[..|s| - 1]);
    }
  }

  // Stripping loses no ink, and leaves nothing exactly when there was none.
  lemma StripInk(s: string)
    ensures Ink(Strip(s)) == Ink(s) && |Strip(s)| <= |s|
    ensures Strip(s) == "" <==> Ink(s) == ""
  {
    LstripInk(s);
    RstripInk(Lstrip(s));
    if Strip(s) != "" {
      assert Ink(Strip(s)) != "";
    }
  }

  // The two separators: a paragraph break is a new line, white space and a new
  // line; a sentence ends at white space after a full stop, `!` or `?`.
  datatype Separator = ParagraphBreak | SentenceEnd

  function RunEnd(s: string, i: nat): (e: nat)
    requires i <= |s|
    ensures i <= e <= |s| && forall k :: i <= k < e ==> IsSpace(s[k])
    decreases |s| - i
  {
    if i < |s| && IsSpace(s[i]) then RunEnd(s, i + 1) else i
  }

  // The end of the last new line in s[i..e], or i when there is none.
  function LastNewline(s: string, i: nat, e: nat): (j: nat)
    requires i <= e <= |s|
    ensures i <= j <= e
  {
    if i == e || s[e - 1] == '\n' then e else LastNewline(s, i, e - 1)
  }

  // Where the match that starts at i ends; i itself when none starts there.
  function MatchEnd(sep: Separator, s: string, i: nat): (e: nat)
    requires i < |s|
    ensures i <= e <= |s| && forall k :: i <= k < e ==> IsSpace(s[k])
  {
    match sep
    case ParagraphBreak =>
      if s[i] != '\n' then i
      else
        var j := LastNewline(s, i + 1, RunEnd(s, i + 1));
        if j == i + 1 then i else j
    case SentenceEnd =>
      if 0 < i && (s[i - 1] == '.' || s[i - 1] == '!' || s[i - 1] == '?') then RunEnd(s, i) else i
  }

  // re.split from position i, with the current piece starting at `start`.
  function SplitFrom(sep: Separator, s: string, start: nat, i: nat): (pieces: seq<string>)
    requires start <= i <= |s|
    decreases |s| - i
  {
    if i == |s| then [s[start..]]
    else
      var e := MatchEnd(sep, s, i);
      if e == i then SplitFrom(sep, s, start, i + 1) else [s[start..i]] + SplitFrom(sep, s, e, e)
  }

  function Split(sep: Separator, s: string): seq<string> {
    SplitFrom(sep, s, 0, 0)
  }

  lemma {:induction false} SpaceHasNoInk(s: string)
    requires forall k :: 0 <= k < |s| ==> IsSpace(s[k])
    ensures Ink(s) == ""
  {
    if s != "" {
      SpaceHasNoInk(s[..|s| - 1]);
    }
  }

  lemma CutAtSpace(s: string, i: nat, e: nat)
    requires i <= e <= |s| && forall k :: i <= k < e ==> IsSpace(s[k])
    ensures Ink(s) == Ink(s[..i]) + Ink(s[e..])
  {
    ThreeParts(s, i, e);
    Between(s[..i], s[i..e], s[e..]);
  }

  lemma ThreeParts(s: string, i: nat, e: nat)
    requires i <= e <= |s|
    ensures s == s[..i] + s[i..e] + s[e..] && forall k :: 0 <= k < e - i ==> s[i..e][k] == s[i + k]
  {
  }

  lemma Between(a: string, b: string, c: string)
    requires forall k :: 0 <= k < |b| ==> IsSpace(b[k])
    ensures Ink(a + b + c) == Ink(a) + Ink(c)
  {
    SpaceHasNoInk(b);
    InkAppend(a + b, c);
    InkAppend(a, b);
    assert Ink(a) + "" == Ink(a);
  }

  lemma {:induction false} SplitFromInk(sep: Separator, s: string, start: nat, i: nat)
    requires start <= i <= |s|
    ensures InkOf(SplitFrom(sep, s, start, i)) == Ink(s[start..])
    decreases |s| - i
  {
    if i == |s| {
      InkOfOne([], s[start..]);
    } else {
      var e := MatchEnd(sep, s, i);
      if e == i {
        SplitFromInk(sep, s, start, i + 1);
      } else {
        SplitFromInk(sep, s, e, e);
        FirstPiece(s, start, i, e, SplitFrom(sep, s, e, e));
      }
    }
  }

  lemma FirstPiece(s: string, start: nat, i: nat, e: nat, rest: seq<string>)
    requires start <= i <= e <= |s| && (forall k :: i <= k < e ==> IsSpace(s[k])) && InkOf(rest) == Ink(s[e..])
    ensures InkOf([s[start..i]] + rest) == Ink(s[start..])
  {
    InkOfFirst(s[start..i], rest);
    var t := s[start..];
    CutAtSpace(t, i - start, e - start);
    assert t[..i - start] == s[start..i] && t[e - start..] == s[e..];
  }

  // The running state of the sentence loop.
  datatype Cutter = Cutter(chunks: seq<string>, current: string)

  function HardCut(k: Cutter): Cutter
    decreases |k.current|
  {
    if |k.current| <= CHUNK_MAX_CHARS then k
    else HardCut(Cutter(k.chunks + [k.current[..CHUNK_MAX_CHARS]], k.current[CHUNK_MAX_CHARS..]))
  }

  function AddSentence(k: Cutter, sentence: string): Cutter {
    HardCut(
      if k.current != "" && |k.current| + 1 + |sentence| > CHUNK_TARGET_CHARS
      then Cutter(k.chunks + [k.current], sentence)
      else Cutter(k.chunks, Strip(k.current + " " + sentence)))
  }

  function AddSentences(k: Cutter, sentences: seq<string>): Cutter {
    if sentences == [] then k
    else AddSentence(AddSentences(k, sentences[..|sentences| - 1]), sentences[|sentences| - 1])
  }

  function Finished(k: Cutter): seq<string> {
    if k.current == "" then k.chunks else k.chunks + [k.current]
  }

  function AddParagraph(chunks: seq<string>, paragraph: string): seq<string> {
    var p := Strip(paragraph);
    if p == "" then chunks
    else if |p| <= CHUNK_MAX_CHARS then chunks + [p]
    else Finished(AddSentences(Cutter(chunks, ""), Split(SentenceEnd, p)))
  }

  function AddParagraphs(chunks: seq<string>, paragraphs: seq<string>): seq<string> {
    if paragraphs == [] then chunks
    else AddParagraph(AddParagraphs(chunks, paragraphs[..|paragraphs| - 1]), paragraphs[|paragraphs| - 1])
  }

  function SplitOnBoundaries(text: string): seq<string> {
    AddParagraphs([], Split(ParagraphBreak, text))
  }

  // Chunks of a sane size.
  ghost predicate Sized(chunks: seq<string>) {
    forall i :: 0 <= i < |chunks| ==> 0 < |chunks[i]| <= CHUNK_MAX_CHARS
  }

  lemma {:induction false} HardCutKeeps(k: Cutter)
    requires Sized(k.chunks)
    ensures Sized(HardCut(k).chunks) && |HardCut(k).current| <= CHUNK_MAX_CHARS
    ensures InkOf(HardCut(k).chunks) + Ink(HardCut(k).current) == InkOf(k.chunks) + Ink(k.current)
    decreases |k.current|
  {
    if |k.current| > CHUNK_MAX_CHARS {
      var a, b := k.current[..CHUNK_MAX_CHARS], k.current[CHUNK_MAX_CHARS..];
      HardCutKeeps(Cutter(k.chunks + [a], b));
      OneCut(k.chunks, a, b);
      assert k.current == a + b;
    }
  }

  lemma OneCut(chunks: seq<string>, a: string, b: string)
    ensures InkOf(chunks + [a]) + Ink(b) == InkOf(chunks) + Ink(a + b)
  {
    InkOfOne(chunks, a);
    InkAppend(a, b);
    Regroup(InkOf(chunks), Ink(a), Ink(b));
  }

  lemma AddSentenceKeeps(k: Cutter, sentence: string)
    requires Sized(k.chunks) && |k.current| <= CHUNK_MAX_CHARS
    ensures var r := AddSentence(k, sentence);
            && Sized(r.chunks) && |r.current| <= CHUNK_MAX_CHARS
            && InkOf(r.chunks) + Ink(r.current) == InkOf(k.chunks) + Ink(k.current) + Ink(sentence)
  {
    if k.current != "" && |k.current| + 1 + |sentence| > CHUNK_TARGET_CHARS {
      InkOfOne(k.chunks, k.current);
      HardCutKeeps(Cutter(k.chunks + [k.current], sentence));
    } else {
      JoinInk(k.current, sentence);
      Regroup(InkOf(k.chunks), Ink(k.current), Ink(sentence));
      HardCutKeeps(Cutter(k.chunks, Strip(k.current + " " + sentence)));
    }
  }

  lemma JoinInk(a: string, b: string)
    ensures Ink(Strip(a + " " + b)) == Ink(a) + Ink(b)
  {
    StripInk(a + " " + b);
    SpacedInk(a, b);
  }

  lemma SpacedInk(a: string, b: string)
    ensures Ink(a + " " + b) == Ink(a) + Ink(b)
  {
    Between(a, " ", b);
  }

  lemma {:induction false} AddSentencesKeeps(k: Cutter, sentences: seq<string>)
    requires Sized(k.chunks) && |k.current| <= CHUNK_MAX_CHARS
    ensures var r := AddSentences(k, sentences);
            && Sized(r.chunks) && |r.current| <= CHUNK_MAX_CHARS
            && InkOf(r.chunks) + Ink(r.current) == InkOf(k.chunks) + Ink(k.current) + InkOf(sentences)
  {
    if sentences != [] {
      var n := |sentences| - 1;
      AddSentencesKeeps(k, sentences[..n]);
      AddSentenceKeeps(AddSentences(k, sentences[..n]), sentences[n]);
      Regroup(InkOf(k.chunks) + Ink(k.current), InkOf(sentences[..n]), Ink(sentences[n]));
    }
  }

  lemma LongParagraph(chunks: seq<string>, p: string)
    requires Sized(chunks)
    ensures var r := Finished(AddSentences(Cutter(chunks, ""), Split(SentenceEnd, p)));
            Sized(r) && InkOf(r) == InkOf(chunks) + Ink(p)
  {
    var k := AddSentences(Cutter(chunks, ""), Split(SentenceEnd, p));
    AddSentencesKeeps(Cutter(chunks, ""), Split(SentenceEnd, p));
    SplitFromInk(SentenceEnd, p, 0, 0);
    assert p[0..] == p;
    InkOfOne(k.chunks, k.current);
    assert InkOf(chunks) + Ink("") == InkOf(chunks);
    assert k.current == "" ==> InkOf(k.chunks) + Ink(k.current) == InkOf(k.chunks);
  }

  lemma AddParagraphKeeps(chunks: seq<string>, paragraph: string)
    requires Sized(chunks)
    ensures Sized(AddParagraph(chunks, paragraph))
            && InkOf(AddParagraph(chunks, paragraph)) == InkOf(chunks) + Ink(paragraph)
  {
    var p := Strip(paragraph);
    StripInk(paragraph);
    if p == "" {
      assert InkOf(chunks) + "" == InkOf(chunks);
    } else if |p| <= CHUNK_MAX_CHARS {
      InkOfOne(chunks, p);
    } else {
      LongParagraph(chunks, p);
    }
  }

  lemma {:induction false} AddParagraphsKeeps(chunks: seq<string>, paragraphs: seq<string>)
    requires Sized(chunks)
    ensures Sized(AddParagraphs(chunks, paragraphs))
    ensures InkOf(AddParagraphs(chunks, paragraphs)) == InkOf(chunks) + InkOf(paragraphs)
  {
    if paragraphs != [] {
      var n := |paragraphs| - 1;
      AddParagraphsKeeps(chunks, paragraphs[..n]);
      AddParagraphKeeps(AddParagraphs(chunks, paragraphs[..n]), paragraphs[n]);
      Regroup(InkOf(chunks), InkOf(paragraphs[..n]), Ink(paragraphs[n]));
    }
  }

  // Splitting any text loses no ink and makes no empty or oversized chunk.
  lemma SplitKeepsText(text: string)
    ensures Sized(SplitOnBoundaries(text)) && InkOf(SplitOnBoundaries(text)) == Ink(text)
  {
    AddParagraphsKeeps([], Split(ParagraphBreak, text));
    SplitFromInk(ParagraphBreak, text, 0, 0);
    assert text[0..] == text;
  }

  // An event's payload: a conversation, or anything else as its serialized text.
  datatype Message = Message(role: string, speaker: string, content: string, text: string)
  datatype Payload = Messages(messages: seq<Message>) | Opaque(serialized: string)

  function OrElse(a: string, b: string): string {
    if a != "" then a else b
  }

  function MessageText(m: Message): string {
    Strip(OrElse(m.role, OrElse(m.speaker, "?")) + ": " + OrElse(m.content, m.text))
  }

  function Texts(ms: seq<Message>): seq<string> {
    seq(|ms|, i requires 0 <= i < |ms| => MessageText(ms[i]))
  }

  function Blob(kind: string, serialized: string): string {
    kind + " " + serialized
  }

  function Raw(kind: string, p: Payload): seq<string> {
    match p
    case Messages(ms) => Texts(ms)
    case Opaque(t) => Cut(Blob(kind, t))
  }

  // A short text stays whole.
  function Cut(blob: string): seq<string> {
    if |blob| > CHUNK_MAX_CHARS then SplitOnBoundaries(blob) else [blob]
  }

  // Stripped, without the blank ones.
  function Cleaned(chunks: seq<string>): seq<string> {
    if chunks == [] then []
    else
      var c := Strip(chunks[|chunks| - 1]);
      Cleaned(chunks[..|chunks| - 1]) + (if c == "" then [] else [c])
  }

  function Joined(chunks: seq<string>): string {
    if chunks == [] then "" else if |chunks| == 1 then chunks[0] else chunks[0] + " " + Joined(chunks[1..])
  }

  function Take(s: string, n: nat): string {
    if |s| <= n then s else s[..n]
  }

  // The cap merges the tail into the last chunk, and cuts that chunk.
  function Capped(chunks: seq<string>): seq<string> {
    if |chunks| <= MAX_CHUNKS_PER_EVENT then chunks
    else
      chunks[..MAX_CHUNKS_PER_EVENT - 1] + [Take(Joined(chunks[MAX_CHUNKS_PER_EVENT - 1..]), CHUNK_MAX_CHARS)]
  }

  function ChunkPayload(kind: string, p: Payload): seq<string> {
    var chunks := Cleaned(Raw(kind, p));
    if chunks == [] then [kind] else Capped(chunks)
  }

  lemma {:induction false} CleanedKeeps(chunks: seq<string>)
    ensures InkOf(Cleaned(chunks)) == InkOf(chunks)
    ensures Cleaned(chunks) == [] <==> InkOf(chunks) == ""
  {
    if chunks != [] {
      var n := |chunks| - 1;
      CleanedKeeps(chunks[..n]);
      StripInk(chunks[n]);
      InkOfOne(Cleaned(chunks[..n]), Strip(chunks[n]));
      assert InkOf(chunks) == InkOf(chunks[..n]) + Ink(chunks[n]);
      assert Strip(chunks[n]) == "" ==> Cleaned(chunks) == Cleaned(chunks[..n]);
      assert InkOf(chunks[..n]) + "" == InkOf(chunks[..n]);
    }
  }

  lemma {:induction false} CleanedSized(chunks: seq<string>)
    requires forall i :: 0 <= i < |chunks| ==> |chunks[i]| <= CHUNK_MAX_CHARS
    ensures Sized(Cleaned(chunks))
  {
    if chunks != [] {
      var n := |chunks| - 1;
      CleanedSized(chunks[..n]);
      StripInk(chunks[n]);
    }
  }

  lemma {:induction false} JoinedInk(chunks: seq<string>)
    ensures Ink(Joined(chunks)) == InkOf(chunks)
  {
    if |chunks| == 1 {
      InkOfOne([], chunks[0]);
      assert chunks == [] + [chunks[0]];
    } else if |chunks| > 1 {
      var first, rest := chunks[0], chunks[1..];
      JoinedInk(rest);
      SpacedInk(first, Joined(rest));
      InkOfFirst(first, rest);
      assert chunks == [first] + rest;
    }
  }

  // The characters the cap throws away.
  function CutOff(chunks: seq<string>): string {
    if |chunks| <= MAX_CHUNKS_PER_EVENT then ""
    else
      var tail := Joined(chunks[MAX_CHUNKS_PER_EVENT - 1..]);
      tail[|Take(tail, CHUNK_MAX_CHARS)|..]
  }

  // The cap keeps the text up to what it throws away.
  lemma CappedKeeps(chunks: seq<string>)
    ensures |Capped(chunks)| <= MAX_CHUNKS_PER_EVENT
    ensures InkOf(chunks) == InkOf(Capped(chunks)) + Ink(CutOff(chunks))
  {
    if |chunks| > MAX_CHUNKS_PER_EVENT {
      var n := MAX_CHUNKS_PER_EVENT - 1;
      var tail := Joined(chunks[n..]);
      var kept := Take(tail, CHUNK_MAX_CHARS);
      assert chunks == chunks[..n] + chunks[n..];
      InkOfAppend(chunks[..n], chunks[n..]);
      JoinedInk(chunks[n..]);
      assert tail == kept + tail[|kept|..];
      InkAppend(kept, tail[|kept|..]);
      InkOfOne(chunks[..n], kept);
    }
  }

  // An event always becomes 1 to 200 chunks.
  lemma ChunkCount(kind: string, p: Payload)
    ensures 1 <= |ChunkPayload(kind, p)| <= MAX_CHUNKS_PER_EVENT
  {
  }

  // An opaque payload keeps its whole text up to the cap and the start of it
  // beyond, in chunks of bounded size.
  lemma OpaqueKeepsText(kind: string, t: string)
    requires Ink(t) != ""
    ensures var r := ChunkPayload(kind, Opaque(t));
            && Ink(Blob(kind, t)) == InkOf(r) + Ink(CutOff(Cleaned(Raw(kind, Opaque(t)))))
            && (forall i :: 0 <= i < |r| ==> |r[i]| <= CHUNK_MAX_CHARS)
  {
    var raw := Cut(Blob(kind, t));
    CutKeeps(Blob(kind, t));
    BlobHasInk(kind, t);
    CleanedKeeps(raw);
    CleanedSized(raw);
    CappedKeeps(Cleaned(raw));
    CappedSized(Cleaned(raw));
  }

  lemma BlobHasInk(kind: string, t: string)
    requires Ink(t) != ""
    ensures Ink(Blob(kind, t)) != ""
  {
    InkAppend(kind + " ", t);
  }

  lemma CappedSized(chunks: seq<string>)
    requires Sized(chunks)
    ensures forall i :: 0 <= i < |Capped(chunks)| ==> |Capped(chunks)[i]| <= CHUNK_MAX_CHARS
  {
  }

  lemma CutKeeps(blob: string)
    ensures InkOf(Cut(blob)) == Ink(blob) && forall i :: 0 <= i < |Cut(blob)| ==> |Cut(blob)[i]| <= CHUNK_MAX_CHARS
  {
    if |blob| > CHUNK_MAX_CHARS {
      SplitKeepsText(blob);
    } else {
      InkOfOne([], blob);
      assert [] + [blob] == [blob];
    }
  }

  predicate EndsInInk(c: string) {
    c != "" && !IsSpace(c[|c| - 1])
  }

  lemma {:induction false} CleanedEndsInInk(chunks: seq<string>)
    ensures forall i :: 0 <= i < |Cleaned(chunks)| ==> EndsInInk(Cleaned(chunks)[i])
  {
    if chunks != [] {
      CleanedEndsInInk(chunks[..|chunks| - 1]);
      RstripInk(Lstrip(chunks[|chunks| - 1]));
    }
  }

  lemma {:induction false} JoinedEndsInInk(chunks: seq<string>)
    requires chunks != [] && EndsInInk(chunks[|chunks| - 1])
    ensures EndsInInk(Joined(chunks))
  {
    if |chunks| > 1 {
      JoinedEndsInInk(chunks[1..]);
    }
  }

  // The module promises that no text is ever lost. That holds if and only if
  // the chunks fit the cap, or the tail merged beyond it fits one chunk.
  lemma NothingLostIff(kind: string, p: Payload)
    requires InkOf(Raw(kind, p)) != ""
    ensures var chunks := Cleaned(Raw(kind, p));
            InkOf(ChunkPayload(kind, p)) == InkOf(Raw(kind, p))
            <==> |chunks| <= MAX_CHUNKS_PER_EVENT || |Joined(chunks[MAX_CHUNKS_PER_EVENT - 1..])| <= CHUNK_MAX_CHARS
  {
    var chunks := Cleaned(Raw(kind, p));
    CleanedKeeps(Raw(kind, p));
    CappedKeeps(chunks);
    CleanedEndsInInk(Raw(kind, p));
    if |chunks| > MAX_CHUNKS_PER_EVENT {
      var tail := chunks[MAX_CHUNKS_PER_EVENT - 1..];
      JoinedEndsInInk(tail);
      var cut := CutOff(chunks);
      if |Joined(tail)| > CHUNK_MAX_CHARS {
        assert cut[|cut| - 1] == Joined(tail)[|Joined(tail)| - 1];
        HasInk(cut, |cut| - 1);
      } else {
        assert cut == "";
      }
    }
  }

  // A conversation of 201 turns, each a thousand characters long.
  const LONG_TURN := Message("user", "", seq(1000, _ => 'a'), "")
  const LONG_CHAT := seq(201, _ => LONG_TURN)

  lemma LongTurn()
    ensures |MessageText(LONG_TURN)| == 1006 && Ink(MessageText(LONG_TURN)) != ""
  {
    var t := "user: " + LONG_TURN.content;
    assert t[0] == 'u' && t[|t| - 1] == 'a';
    assert Lstrip(t) == t && Rstrip(t) == t;
    HasInk(t, 0);
  }

  // The last two of the 201 turns share the last chunk, which has room for 1600
  // of their 2013 characters: the rest is lost.
  lemma LongChatLosesText(kind: string)
    ensures InkOf(ChunkPayload(kind, Messages(LONG_CHAT))) != InkOf(Raw(kind, Messages(LONG_CHAT)))
  {
    var texts := Texts(LONG_CHAT);
    LongTurn();
    CleanedTexts(LONG_CHAT);
    var tail := texts[MAX_CHUNKS_PER_EVENT - 1..];
    assert tail == [MessageText(LONG_TURN), MessageText(LONG_TURN)];
    assert tail[1..] == [MessageText(LONG_TURN)];
    assert |Joined(tail)| == 2013;
    assert texts == texts[..200] + [MessageText(LONG_TURN)];
    InkOfOne(texts[..200], MessageText(LONG_TURN));
    NothingLostIff(kind, Messages(LONG_CHAT));
  }

  // A text whose paragraphs all fit one chunk is cut at its paragraph breaks
  // and nowhere else.
  lemma ParagraphsStayWhole(text: string)
    requires forall i :: 0 <= i < |Split(ParagraphBreak, text)| ==>
             |Strip(Split(ParagraphBreak, text)[i])| <= CHUNK_MAX_CHARS
    ensures SplitOnBoundaries(text) == Cleaned(Split(ParagraphBreak, text))
  {
    ShortParagraphs(Split(ParagraphBreak, text));
  }

  lemma {:induction false} ShortParagraphs(paragraphs: seq<string>)
    requires forall i :: 0 <= i < |paragraphs| ==> |Strip(paragraphs[i])| <= CHUNK_MAX_CHARS
    ensures AddParagraphs([], paragraphs) == Cleaned(paragraphs)
  {
    if paragraphs != [] {
      ShortParagraphs(paragraphs[..|paragraphs| - 1]);
    }
  }

  // White space at neither end.
  predicate Trimmed(s: string) {
    s == "" || (!IsSpace(s[0]) && !IsSpace(s[|s| - 1]))
  }

  lemma StripTrims(s: string)
    ensures Trimmed(Strip(s))
  {
    LstripInk(s);
    RstripInk(Lstrip(s));
  }

  lemma {:induction false} RunStops(s: string, i: nat)
    requires i <= |s|
    ensures RunEnd(s, i) == |s| || !IsSpace(s[RunEnd(s, i)])
    decreases |s| - i
  {
    if i < |s| && IsSpace(s[i]) {
      RunStops(s, i + 1);
    }
  }

  ghost predicate AllTrimmed(pieces: seq<string>) {
    forall k :: 0 <= k < |pieces| ==> Trimmed(pieces[k])
  }

  lemma {:induction false} SentencesTrimmed(s: string, start: nat, i: nat)
    requires Trimmed(s) && start <= i <= |s| && (start < |s| ==> !IsSpace(s[start]))
    ensures AllTrimmed(SplitFrom(SentenceEnd, s, start, i))
    decreases |s| - i
  {
    if i == |s| {
      assert start < |s| ==> s[start..][|s| - 1 - start] == s[|s| - 1];
    } else {
      var e := MatchEnd(SentenceEnd, s, i);
      if e == i {
        SentencesTrimmed(s, start, i + 1);
      } else {
        RunStops(s, i);
        assert IsSpace(s[i]) && start < i;
        assert s[start..i][i - start - 1] == s[i - 1];
        SentencesTrimmed(s, e, e);
      }
    }
  }

  lemma JoinGrows(a: string, b: string)
    requires Trimmed(a) && Trimmed(b)
    ensures |Strip(a + " " + b)| >= |a|
  {
    if b == "" && a != "" {
      assert (a + " " + b)[..|a|] == a && Lstrip(a + " " + b) == a + " " + b;
      assert Rstrip(a + " " + b) == Rstrip(a);
    } else if a != "" {
      assert Strip(a + " " + b) == a + " " + b;
    }
  }

  // From place n on, no two neighbours fit the target together.
  ghost predicate Full(chunks: seq<string>, n: nat) {
    forall i :: n <= i < |chunks| - 1 ==> |chunks[i]| + 1 + |chunks[i + 1]| > CHUNK_TARGET_CHARS
  }

  ghost predicate Tight(k: Cutter, n: nat) {
    n < |k.chunks| ==>
      var last := |k.chunks[|k.chunks| - 1]|;
      last >= CHUNK_TARGET_CHARS || (Trimmed(k.current) && last + 1 + |k.current| > CHUNK_TARGET_CHARS)
  }

  lemma {:induction false} HardCutTight(k: Cutter, n: nat)
    requires Full(k.chunks, n) && Tight(k, n) && n <= |k.chunks|
    ensures Full(HardCut(k).chunks, n) && Tight(HardCut(k), n) && k.chunks <= HardCut(k).chunks
    decreases |k.current|
  {
    if |k.current| > CHUNK_MAX_CHARS {
      HardCutTight(Cutter(k.chunks + [k.current[..CHUNK_MAX_CHARS]], k.current[CHUNK_MAX_CHARS..]), n);
    }
  }

  lemma {:induction false} SentencesTight(k: Cutter, sentences: seq<string>)
    requires k.current == "" && AllTrimmed(sentences)
    ensures var r := AddSentences(k, sentences);
            Full(r.chunks, |k.chunks|) && Tight(r, |k.chunks|) && k.chunks <= r.chunks
  {
    if sentences != [] {
      var n := |sentences| - 1;
      SentencesTight(k, sentences[..n]);
      SentenceTight(AddSentences(k, sentences[..n]), sentences[n], |k.chunks|);
    }
  }

  lemma SentenceTight(r: Cutter, s: string, n: nat)
    requires Full(r.chunks, n) && Tight(r, n) && n <= |r.chunks| && Trimmed(s)
    ensures var q := AddSentence(r, s); Full(q.chunks, n) && Tight(q, n) && r.chunks <= q.chunks
  {
    if r.current != "" && |r.current| + 1 + |s| > CHUNK_TARGET_CHARS {
      HardCutTight(Cutter(r.chunks + [r.current], s), n);
    } else {
      StripTrims(r.current + " " + s);
      if Trimmed(r.current) {
        JoinGrows(r.current, s);
      }
      HardCutTight(Cutter(r.chunks, Strip(r.current + " " + s)), n);
    }
  }

  // A paragraph is never cut finer than it must be: no two neighbouring chunks
  // of one paragraph fit the target together.
  lemma NeighboursDoNotFit(chunks: seq<string>, paragraph: string)
    ensures chunks <= AddParagraph(chunks, paragraph) && Full(AddParagraph(chunks, paragraph), |chunks|)
  {
    var p := Strip(paragraph);
    StripTrims(paragraph);
    if |p| > CHUNK_MAX_CHARS {
      SentencesTrimmed(p, 0, 0);
      SentencesTight(Cutter(chunks, ""), Split(SentenceEnd, p));
    }
  }

  // Sentences within the target make chunks within the target.
  lemma {:induction false} SentencesRespectTarget(k: Cutter, sentences: seq<string>)
    requires |k.current| <= CHUNK_TARGET_CHARS
             && forall i :: 0 <= i < |sentences| ==> |sentences[i]| <= CHUNK_TARGET_CHARS
    ensures var r := AddSentences(k, sentences);
            && |r.current| <= CHUNK_TARGET_CHARS && k.chunks <= r.chunks
            && forall i :: |k.chunks| <= i < |r.chunks| ==> |r.chunks[i]| <= CHUNK_TARGET_CHARS
  {
    if sentences != [] {
      var n := |sentences| - 1;
      SentencesRespectTarget(k, sentences[..n]);
      var r, s := AddSentences(k, sentences[..n]), sentences[n];
      StripInk(r.current + " " + s);
      SpaceFirst(s);
      assert r.current == "" ==> r.current + " " + s == " " + s;
    }
  }

  lemma SpaceFirst(s: string)
    ensures |Strip(" " + s)| <= |s|
  {
    assert (" " + s)[1..] == s && IsSpace((" " + s)[0]);
    assert Lstrip(" " + s) == Lstrip(s);
    StripInk(s);
  }

  lemma {:induction false} HasInk(s: string, i: nat)
    requires i < |s| && !IsSpace(s[i])
    ensures Ink(s) != "" && Strip(s) != ""
  {
    if i < |s| - 1 {
      HasInk(s[..|s| - 1], i);
    }
    StripInk(s);
  }

  lemma MessageTextNotEmpty(m: Message)
    ensures MessageText(m) != "" && Strip(MessageText(m)) == MessageText(m)
  {
    var who := OrElse(m.role, OrElse(m.speaker, "?"));
    HasInk(who + ": " + OrElse(m.content, m.text), |who|);
    StripTwice(who + ": " + OrElse(m.content, m.text));
  }

  lemma StripTwice(s: string)
    ensures Strip(Strip(s)) == Strip(s)
  {
    LstripInk(s);
    RstripInk(Lstrip(s));
  }

  lemma OneMoreCleaned(chunks: seq<string>, c: string)
    requires Cleaned(chunks) == chunks && Strip(c) == c != ""
    ensures Cleaned(chunks + [c]) == chunks + [c]
  {
    assert (chunks + [c])[..|chunks|] == chunks;
  }

  lemma {:induction false} CleanedTexts(ms: seq<Message>)
    ensures Cleaned(Texts(ms)) == Texts(ms)
  {
    if ms != [] {
      var n := |ms| - 1;
      CleanedTexts(ms[..n]);
      MessageTextNotEmpty(ms[n]);
      OneMoreCleaned(Texts(ms[..n]), MessageText(ms[n]));
      assert Texts(ms) == Texts(ms[..n]) + [MessageText(ms[n])];
    }
  }

  // Up to the cap, chunk i is message i, whole and however long; beyond it the
  // first 199 still are.
  lemma ChunkIsMessage(kind: string, ms: seq<Message>, i: nat)
    requires i < |ms| && (|ms| <= MAX_CHUNKS_PER_EVENT || i < MAX_CHUNKS_PER_EVENT - 1)
    ensures var r := ChunkPayload(kind, Messages(ms)); i < |r| && r[i] == MessageText(ms[i])
    ensures |ms| <= MAX_CHUNKS_PER_EVENT ==> |ChunkPayload(kind, Messages(ms))| == |ms|
  {
    CleanedTexts(ms);
    CappedAt(Texts(ms), i);
  }

  lemma CappedAt(chunks: seq<string>, i: nat)
    requires i < |chunks| && (|chunks| <= MAX_CHUNKS_PER_EVENT || i < MAX_CHUNKS_PER_EVENT - 1)
    ensures i < |Capped(chunks)| && Capped(chunks)[i] == chunks[i]
    ensures |chunks| <= MAX_CHUNKS_PER_EVENT ==> Capped(chunks) == chunks
  {
  }

  // _split_on_boundaries, with its three nested loops.
  method SplitText(text: string) returns (chunks: seq<string>)
    ensures chunks == SplitOnBoundaries(text)
    ensures Sized(chunks) && InkOf(chunks) == Ink(text)
  {
    chunks := [];
    var paragraphs := Split(ParagraphBreak, text);
    for i := 0 to |paragraphs|
      invariant chunks == AddParagraphs([], paragraphs[..i])
    {
      assert paragraphs[..i + 1][..i] == paragraphs[..i];
      var paragraph := Strip(paragraphs[i]);
      if paragraph == "" {
        continue;
      }
      if |paragraph| <= CHUNK_MAX_CHARS {
        chunks := chunks + [paragraph];
        continue;
      }
      ghost var before := chunks;
      var current := "";
      var sentences := Split(SentenceEnd, paragraph);
      for j := 0 to |sentences|
        invariant Cutter(chunks, current) == AddSentences(Cutter(before, ""), sentences[..j])
      {
        assert sentences[..j + 1][..j] == sentences[..j];
        ghost var k := Cutter(chunks, current);
        if current != "" && |current| + 1 + |sentences[j]| > CHUNK_TARGET_CHARS {
          chunks := chunks + [current];
          current := sentences[j];
        } else {
          current := Strip(current + " " + sentences[j]);
        }
        while |current| > CHUNK_MAX_CHARS
          invariant HardCut(Cutter(chunks, current)) == AddSentence(k, sentences[j])
        {
          chunks := chunks + [current[..CHUNK_MAX_CHARS]];
          current := current[CHUNK_MAX_CHARS..];
        }
      }
      assert sentences[..|sentences|] == sentences;
      if current != "" {
        chunks := chunks + [current];
      }
    }
    assert paragraphs[..|paragraphs|] == paragraphs;
    SplitKeepsText(text);
  }

  method ChunkEvent(kind: string, payload: Payload) returns (result: seq<string>)
    ensures result == ChunkPayload(kind, payload)
    ensures 1 <= |result| <= MAX_CHUNKS_PER_EVENT
  {
    var chunks;
    match payload {
      case Messages(ms) =>
        chunks := Texts(ms);
      case Opaque(t) =>
        var blob := Blob(kind, t);
        if |blob| > CHUNK_MAX_CHARS {
          chunks := SplitText(blob);
        } else {
          chunks := [blob];
        }
    }
    chunks := Cleaned(chunks);
    if chunks == [] {
      return [kind];
    }
    if |chunks| > MAX_CHUNKS_PER_EVENT {
      var head := chunks[..MAX_CHUNKS_PER_EVENT - 1];
      return head + [Take(Joined(chunks[MAX_CHUNKS_PER_EVENT - 1..]), CHUNK_MAX_CHARS)];
    }
    return chunks;
  }
}
