/**
 * The decisions `GeminiService` takes before and around its calls to the
 * provider: its own relevance scorer, the gates of `chat` and `editHair`,
 * the prompt of an image edit (strength, style and intensity), and the
 * `extractSection` helper. The HTTP exchanges themselves are not modelled:
 * a gate that lets a request through answers with what it would send.
 */
module GeminiService {
  import opened Text
  import opened Entities
  import opened TextRelevance

  // ---------------------------------------------------------------------------
  // isRelevantText
  // ---------------------------------------------------------------------------

  /** The domain keywords of this scorer, in the source's three lines. */
  const CoreTerms: seq<string> := ["corte", "barba", "estilo", "estetica", "est\U{00E9}tica", "facciones", "cara", "rostro"]
  const HairTerms: seq<string> := ["cabello", "pelo", "textura", "tipo de cabello", "barberia", "barber\U{00ED}a", "degradado", "fade"]
  const StyleTerms: seq<string> := ["pompadour", "quiff", "mullet", "crop", "crew", "side part", "linea", "raya"]
  const ChatDomain: seq<string> := CoreTerms + HairTerms + StyleTerms

  /** The off-topic keywords, each costing two points here. */
  const ChatOffTopic: seq<string> := [
    "clima", "chiste", "comida", "politica", "pol\U{00ED}tica", "videojuego", "programacion", "programaci\U{00F3}n",
    "tarea", "deberes", "auto", "mustang", "coche", "finanzas", "medicina"]

  /** The signals of intent, one of which must occur. */
  const Intents: seq<string> := ["recomienda", "sugerencia", "me queda", "me favorece", "barbero", "quiero", "busco", "cambiar", "corte"]

  function ChatScore(t: string): int {
    Hits(t, ChatDomain) - 2 * Hits(t, ChatOffTopic)
  }

  predicate HasIntent(t: string) {
    exists i :: 0 <= i < |Intents| && Contains(t, Intents[i])
  }

  /** `isRelevantText(text)`: non-empty after normalizing, a positive score, and a signal of intent. */
  predicate ChatRelevant(text: Option<string>) {
    var t := Normalize(text);
    t != [] && ChatScore(t) >= 1 && HasIntent(t)
  }

  /** `isRelevantText(text)`, with its early return and the intent loop that stops at the first signal. */
  method IsRelevantText(text: Option<string>) returns (r: bool)
    ensures r == ChatRelevant(text)
  {
    var t := Trim(ToLower(text.GetOr("")));
    if t == [] {
      return false;
    }
    var plus := CountHits(t, ChatDomain);
    var minus := CountHits(t, ChatOffTopic);
    var score := plus as int - 2 * minus;
    if score <= 0 {
      return false;
    }
    var intent := FindIntent(t);
    r := score >= 1 && intent;
  }

  /** The intent loop: stops at the first signal of intent that occurs in `t`. */
  method FindIntent(t: string) returns (intent: bool)
    ensures intent == HasIntent(t)
  {
    intent := false;
    var i := 0;
    while i < |Intents|
      invariant 0 <= i <= |Intents|
      invariant !intent && forall j :: 0 <= j < i ==> !Contains(t, Intents[j])
    {
      if Contains(t, Intents[i]) {
        intent := true;
        break;
      }
      i := i + 1;
    }
  }

  lemma ChatEntries()
    ensures |ChatDomain| == 24 && ChatDomain[0] == "corte" && Intents[8] == "corte"
  {
  }

  /**
   * "corte" is both a domain keyword and a signal of intent: a text that
   * contains it and no off-topic keyword is relevant.
   */
  lemma CorteIsEnough(text: Option<string>)
    requires Contains(Normalize(text), "corte")
    requires Hits(Normalize(text), ChatOffTopic) == 0
    ensures ChatRelevant(text)
  {
    ChatEntries();
    HitsAtLeastOne(Normalize(text), ChatDomain, 0);
  }

  /** Without a signal of intent no number of domain keywords makes a text relevant. */
  lemma IntentRequired(text: Option<string>)
    requires forall i :: 0 <= i < |Intents| ==> !Contains(Normalize(text), Intents[i])
    ensures !ChatRelevant(text)
  {
  }

  /** One off-topic keyword outweighs two domain keywords. */
  lemma OffTopicCountsDouble(text: Option<string>)
    requires ChatRelevant(text)
    ensures Hits(Normalize(text), ChatDomain) > 2 * Hits(Normalize(text), ChatOffTopic)
  {
  }

  lemma ChatKeywordsAreWords()
    ensures forall i :: 0 <= i < |ChatDomain| ==> Word(ChatDomain[i])
  {
    assert forall i :: 0 <= i < |CoreTerms| ==> Word(CoreTerms[i]);
    assert forall i :: 0 <= i < |HairTerms| ==> Word(HairTerms[i]);
    assert forall i :: 0 <= i < |StyleTerms| ==> Word(StyleTerms[i]);
  }

  /** `null`, empty and whitespace-only texts are not relevant. */
  lemma BlankNotChatRelevant(text: Option<string>)
    requires text.None? || IsBlank(text.value)
    ensures !ChatRelevant(text)
  {
    NormalizeBlank(text);
    ChatKeywordsAreWords();
    BlankHitsNone(Normalize(text), ChatDomain);
  }

  // ---------------------------------------------------------------------------
  // The gate of chat
  // ---------------------------------------------------------------------------

  const StandardReply: string := "Puedo ayudarte solo con recomendaciones de cortes, estilos, barba o facciones. \U{00BF}Quieres describir tu rostro o subir una foto?"

  /**
   * What `chat` does: answer the standard reply at once, ask the provider
   * about `text`, or fail with the `NullPointerException` of the loop that
   * builds the provider request over a missing message list.
   */
  datatype ChatStep = Standard(reply: string) | AskProvider(text: string) | MissingMessages

  /** The contents of the messages, each followed by a space, skipping `null` contents. */
  function JoinContents(contents: seq<Option<string>>): string {
    if contents == [] then ""
    else
      var last := contents[|contents| - 1];
      JoinContents(contents[..|contents| - 1]) + (if last.Some? then last.value + " " else "")
  }

  /** The text `chat` judges: the face description and then every message content, each followed by a space. */
  function ChatText(faceDescription: Option<string>, contents: Option<seq<Option<string>>>): string {
    (if faceDescription.Some? then faceDescription.value + " " else "")
    + (if contents.None? then "" else JoinContents(contents.value))
  }

  /** `chat(req)` up to the provider call: an irrelevant text or a blank key gets the standard reply. */
  function ChatGate(text: string, apiKey: string): (r: ChatStep)
    ensures r.Standard? ==> r.reply == StandardReply
  {
    if !ChatRelevant(Some(text)) then Standard(StandardReply)
    else if IsBlank(apiKey) then Standard(StandardReply)
    else AskProvider(text)
  }

  /**
   * `chat(req)` up to the provider call. The message list is null-checked
   * while the text is gathered but not when the provider request is built,
   * so a request without one that passes both gates fails there.
   */
  function ChatOutcome(faceDescription: Option<string>, contents: Option<seq<Option<string>>>, apiKey: string): ChatStep {
    var step := ChatGate(ChatText(faceDescription, contents), apiKey);
    if step.AskProvider? && contents.None? then MissingMessages else step
  }

  /** `chat(req)` up to the provider call, with the loop that gathers the text. */
  method Chat(faceDescription: Option<string>, contents: Option<seq<Option<string>>>, apiKey: string) returns (step: ChatStep)
    ensures step == ChatOutcome(faceDescription, contents, apiKey)
  {
    var all := GatherText(faceDescription, contents);
    var relevant := IsRelevantText(Some(all));
    step := if !relevant || IsBlank(apiKey) then Standard(StandardReply) else AskProvider(all);
    assert step == ChatGate(all, apiKey);
    if step.AskProvider? && contents.None? {
      step := MissingMessages;
    }
  }

  /** The loop of `chat` that appends the face description and each non-null message content. */
  method GatherText(faceDescription: Option<string>, contents: Option<seq<Option<string>>>) returns (all: string)
    ensures all == ChatText(faceDescription, contents)
  {
    var head := if faceDescription.Some? then faceDescription.value + " " else "";
    all := head;
    if contents.Some? {
      var ms := contents.value;
      var i := 0;
      while i < |ms|
        invariant 0 <= i <= |ms|
        invariant all == head + JoinContents(ms[..i])
      {
        assert ms[..i + 1][..i] == ms[..i];
        if ms[i].Some? {
          all := all + ms[i].value + " ";
        }
        i := i + 1;
      }
      assert ms[..|ms|] == ms;
    }
  }

  /** `JoinContents` of a concatenation is the concatenation of the two. */
  lemma {:induction false} JoinContentsAppend(a: seq<Option<string>>, b: seq<Option<string>>)
    ensures JoinContents(a + b) == JoinContents(a) + JoinContents(b)
    decreases |b|
  {
    if b != [] {
      var n := |b| - 1;
      assert (a + b)[..|a + b| - 1] == a + b[..n];
      JoinContentsAppend(a, b[..n]);
    } else {
      assert a + b == a;
    }
  }

  /** Every non-null message content reaches the relevance check. */
  lemma ChatTextHoldsEachContent(faceDescription: Option<string>, contents: seq<Option<string>>, i: int)
    requires 0 <= i < |contents| && contents[i].Some?
    ensures Contains(ChatText(faceDescription, Some(contents)), contents[i].value)
  {
    var c := contents[i].value;
    assert contents == contents[..i] + [contents[i]] + contents[i + 1..];
    JoinContentsAppend(contents[..i] + [contents[i]], contents[i + 1..]);
    JoinContentsAppend(contents[..i], [contents[i]]);
    assert JoinContents([contents[i]]) == c + " " by {
      assert [contents[i]][..0] == [];
    }
    var head := (if faceDescription.Some? then faceDescription.value + " " else "") + JoinContents(contents[..i]);
    var text := ChatText(faceDescription, Some(contents));
    assert text == head + c + (" " + JoinContents(contents[i + 1..]));
    assert text[|head|..|head| + |c|] == c;
    ContainsAt(text, c, |head|);
  }

  /** An irrelevant text, or any text with a blank key, never reaches the provider. */
  lemma ChatGates(text: string, apiKey: string)
    ensures !ChatRelevant(Some(text)) ==> ChatGate(text, apiKey) == Standard(StandardReply)
    ensures IsBlank(apiKey) ==> ChatGate(text, apiKey) == Standard(StandardReply)
    ensures ChatGate(text, apiKey).AskProvider? <==> ChatRelevant(Some(text)) && !IsBlank(apiKey)
  {
  }

  /**
   * The three outcomes of `chat`: the provider is asked exactly for a
   * message list whose gathered text is relevant under a non-blank key, a
   * missing list that passes the gates fails, and everything else gets the
   * standard reply.
   */
  lemma ChatOutcomeCases(faceDescription: Option<string>, contents: Option<seq<Option<string>>>, apiKey: string)
    ensures var r := ChatOutcome(faceDescription, contents, apiKey);
      var text := ChatText(faceDescription, contents);
      && (r.AskProvider? <==> contents.Some? && ChatRelevant(Some(text)) && !IsBlank(apiKey))
      && (r.AskProvider? ==> r.text == text)
      && (r == MissingMessages <==> contents.None? && ChatRelevant(Some(text)) && !IsBlank(apiKey))
      && (r.Standard? <==> !ChatRelevant(Some(text)) || IsBlank(apiKey))
      && (r.Standard? ==> r.reply == StandardReply)
  {
    ChatGates(ChatText(faceDescription, contents), apiKey);
  }

  /** A face description asking for a cut, with no message list and a key, makes `chat` fail. */
  lemma FaceOnlyChatFails(face: string, apiKey: string)
    requires Contains(Normalize(Some(face + " ")), "corte")
    requires Hits(Normalize(Some(face + " ")), ChatOffTopic) == 0
    requires !IsBlank(apiKey)
    ensures ChatOutcome(Some(face), None, apiKey) == MissingMessages
  {
    assert ChatText(Some(face), None) == face + " ";
    CorteIsEnough(Some(face + " "));
  }

  /** A request with nothing in it gets the standard reply. */
  lemma EmptyChatStandard(apiKey: string)
    ensures ChatGate(ChatText(None, None), apiKey) == Standard(StandardReply)
    ensures ChatOutcome(None, None, apiKey) == Standard(StandardReply)
  {
    BlankNotChatRelevant(Some(""));
  }

  // ---------------------------------------------------------------------------
  // extractSection
  // ---------------------------------------------------------------------------

  /** The line break `extractSection` stops at. */
  const Newline: string := "\n"

  /**
   * The untrimmed rest of the line after the first `marker`: from the end of
   * the marker to the first newline after it, or to the end of the text;
   * `None` when `marker` does not occur.
   */
  function LineAfter(text: string, marker: string): Option<string> {
    var i := IndexOf(text, marker, 0);
    if i < 0 then None
    else
      var start := i + |marker|;
      var newline := IndexOf(text, Newline, start);
      var endLine := if newline < 0 then |text| else newline;
      Some(text[start..endLine])
  }

  /** `extractSection(text, marker)`: the trimmed rest of the line after the first `marker`, or "". */
  function ExtractSection(text: string, marker: string): string {
    match LineAfter(text, marker)
    case None => ""
    case Some(line) => Trim(line)
  }

  /** There is a rest of line exactly when `marker` occurs, and it holds no newline. */
  lemma LineAfterIsOneLine(text: string, marker: string)
    ensures LineAfter(text, marker).None? <==> !Contains(text, marker)
    ensures LineAfter(text, marker).Some? ==>
      forall i :: 0 <= i < |LineAfter(text, marker).value| ==> LineAfter(text, marker).value[i] != '\n'
  {
    var i := IndexOf(text, marker, 0);
    if i >= 0 {
      var start := i + |marker|;
      var newline := IndexOf(text, Newline, start);
      var endLine := if newline < 0 then |text| else newline;
      NoNewlineBefore(text, start, endLine);
    }
  }

  /** Without `marker` the section is empty, and a section never holds a newline. */
  lemma ExtractSectionIsOneLine(text: string, marker: string)
    ensures !Contains(text, marker) ==> ExtractSection(text, marker) == ""
    ensures forall i :: 0 <= i < |ExtractSection(text, marker)| ==> ExtractSection(text, marker)[i] != '\n'
  {
    LineAfterIsOneLine(text, marker);
    if LineAfter(text, marker).Some? {
      TrimNoNewline(LineAfter(text, marker).value);
    }
  }

  /** Up to the first newline at or after `start` the text holds no newline. */
  lemma NoNewlineBefore(text: string, start: nat, endLine: int)
    requires start <= |text|
    requires endLine == (if IndexOf(text, Newline, start) < 0 then |text| else IndexOf(text, Newline, start))
    ensures start <= endLine <= |text|
    ensures forall i :: 0 <= i < endLine - start ==> text[start..endLine][i] != '\n'
  {
    forall i | 0 <= i < endLine - start ensures text[start..endLine][i] != '\n' {
      assert !OccursAt(text, Newline, start + i);
      assert text[start + i..start + i + 1] == [text[start + i]];
    }
  }

  lemma TrimNoNewline(s: string)
    requires forall i :: 0 <= i < |s| ==> s[i] != '\n'
    ensures forall i :: 0 <= i < |Trim(s)| ==> Trim(s)[i] != '\n'
  {
    forall i | 0 <= i < |Trim(s)| ensures Trim(s)[i] != '\n' {
      TrimChars(s, Trim(s)[i]);
    }
  }

  /**
   * Reading back a section: in `prefix + marker + line + "\n" + rest`, with
   * the first `marker` right after `prefix` and no newline in `line`, the
   * section is `line` trimmed, whatever follows.
   */
  lemma ExtractSectionReadsLine(prefix: string, marker: string, line: string, rest: string)
    requires forall i :: 0 <= i < |prefix| ==> !OccursAt(prefix + marker + line + Newline + rest, marker, i)
    requires forall i :: 0 <= i < |line| ==> line[i] != '\n'
    ensures ExtractSection(prefix + marker + line + Newline + rest, marker) == Trim(line)
  {
    LineAfterReadsLine(prefix, marker, line, rest);
  }

  /** The rest of line in `prefix + marker + line + "\n" + rest` is `line`. */
  lemma LineAfterReadsLine(prefix: string, marker: string, line: string, rest: string)
    requires forall i :: 0 <= i < |prefix| ==> !OccursAt(prefix + marker + line + Newline + rest, marker, i)
    requires forall i :: 0 <= i < |line| ==> line[i] != '\n'
    ensures LineAfter(prefix + marker + line + Newline + rest, marker) == Some(line)
  {
    var text := prefix + marker + line + Newline + rest;
    var head := prefix + marker;
    FirstMarker(prefix, marker, line, rest);
    FirstNewline(head, line, rest);
    SectionBetween(text, marker, |prefix|, |head| + |line|);
    MiddleSlice(head, line, Newline, rest);
  }

  /**
   * On the last line: in `prefix + marker + line`, with the first `marker`
   * right after `prefix` and no newline in `line`, the section is `line`
   * trimmed.
   */
  lemma ExtractSectionReadsLastLine(prefix: string, marker: string, line: string)
    requires forall i :: 0 <= i < |prefix| ==> !OccursAt(prefix + marker + line, marker, i)
    requires forall i :: 0 <= i < |line| ==> line[i] != '\n'
    ensures ExtractSection(prefix + marker + line, marker) == Trim(line)
  {
    LineAfterReadsLastLine(prefix, marker, line);
  }

  lemma LineAfterReadsLastLine(prefix: string, marker: string, line: string)
    requires forall i :: 0 <= i < |prefix| ==> !OccursAt(prefix + marker + line, marker, i)
    requires forall i :: 0 <= i < |line| ==> line[i] != '\n'
    ensures LineAfter(prefix + marker + line, marker) == Some(line)
  {
    var text := prefix + marker + line;
    var head := prefix + marker;
    assert text[|prefix|..|prefix| + |marker|] == marker;
    assert OccursAt(text, marker, |prefix|);
    assert IndexOf(text, marker, 0) == |prefix|;
    NoNewlineToEnd(head, line);
    assert text[|head|..|text|] == line;
  }

  /** With no newline in `line`, none is found from `|head|` in `head + line`. */
  lemma NoNewlineToEnd(head: string, line: string)
    requires forall i :: 0 <= i < |line| ==> line[i] != '\n'
    ensures IndexOf(head + line, Newline, |head|) == -1
  {
    var text := head + line;
    forall i | |head| <= i ensures !OccursAt(text, Newline, i) {
      if i < |text| {
        assert text[i] == line[i - |head|];
        assert text[i..i + 1][0] == text[i];
      }
    }
  }

  lemma MiddleSlice(a: string, b: string, c: string, d: string)
    ensures (a + b + c + d)[|a|..|a| + |b|] == b
  {
  }

  /** With the first `marker` and the first newline after it found, the rest of line is what lies between. */
  lemma SectionBetween(text: string, marker: string, at: nat, nl: nat)
    requires at + |marker| <= nl <= |text|
    requires IndexOf(text, marker, 0) == at
    requires IndexOf(text, Newline, at + |marker|) == nl
    ensures LineAfter(text, marker) == Some(text[at + |marker|..nl])
  {
  }

  /** A `marker` that no earlier position holds is found right after `prefix`. */
  lemma FirstMarker(prefix: string, marker: string, line: string, rest: string)
    requires forall i :: 0 <= i < |prefix| ==> !OccursAt(prefix + marker + line + Newline + rest, marker, i)
    ensures IndexOf(prefix + marker + line + Newline + rest, marker, 0) == |prefix|
  {
    var text := prefix + marker + line + Newline + rest;
    assert text[|prefix|..|prefix| + |marker|] == marker;
    assert OccursAt(text, marker, |prefix|);
  }

  /** In `head + line + "\n" + rest` with no newline in `line`, the first newline from `|head|` ends `line`. */
  lemma FirstNewline(head: string, line: string, rest: string)
    requires forall i :: 0 <= i < |line| ==> line[i] != '\n'
    ensures IndexOf(head + line + Newline + rest, Newline, |head|) == |head| + |line|
  {
    var text := head + line + Newline + rest;
    var nl := |head| + |line|;
    assert text[nl..nl + 1] == Newline;
    assert OccursAt(text, Newline, nl);
    forall i | |head| <= i < nl ensures !OccursAt(text, Newline, i) {
      assert text[i] == line[i - |head|];
      assert text[i..i + 1][0] == text[i];
    }
  }

  // ---------------------------------------------------------------------------
  // The prompt of an image edit
  // ---------------------------------------------------------------------------

  /** `strength != null ? Math.max(0, Math.min(100, strength)) : 70` */
  function Strength(strength: Option<int>): (s: int)
    ensures 0 <= s <= 100
  {
    if strength.None? then 70
    else if strength.value > 100 then 100
    else if strength.value < 0 then 0
    else strength.value
  }

  /** Strength 70 by default; any value in 0..100 is kept, and one outside goes to the nearer bound. */
  lemma StrengthClamps(v: int)
    ensures Strength(None) == 70
    ensures 0 <= v <= 100 ==> Strength(Some(v)) == v
    ensures v < 0 ==> Strength(Some(v)) == 0
    ensures v > 100 ==> Strength(Some(v)) == 100
    ensures Strength(Some(Strength(Some(v)))) == Strength(Some(v))
  {
  }

  /** A larger requested strength never gives a smaller one. */
  lemma StrengthMonotone(a: int, b: int)
    requires a <= b
    ensures Strength(Some(a)) <= Strength(Some(b))
  {
  }

  /** The intensity tiers. */
  datatype Intensity = Marked | Moderate | Subtle

  /** The tier for strength `s`: marked from 80, moderate from 50, subtle below. */
  function Tier(s: int): Intensity {
    if s >= 80 then Marked
    else if s >= 50 then Moderate
    else Subtle
  }

  /** The styles that ask for a shaved head. */
  const BaldKeywords: seq<string> := ["calvo", "afeitado total", "shaved", "buzz zero"]

  /** How the prompt treats the requested style. */
  datatype StyleChoice = Bald | Styled(style: string) | Automatic

  function ChooseStyle(style: Option<string>): StyleChoice {
    if style.None? || IsBlank(style.value) then Automatic
    else if exists i :: 0 <= i < |BaldKeywords| && Contains(ToLower(style.value), BaldKeywords[i]) then Bald
    else Styled(style.value)
  }

  /** The sentences `buildImageEditPrompt` appends, each standing for its fixed wording (see `Wording`). */
  datatype Sentence =
    | Preserve | HairOnly | StrengthLine(strength: nat) | StyleLine(choice: StyleChoice)
    | IntensityLine(tier: Intensity) | Avoid | Notes(description: string) | Output

  function Wording(p: Sentence): string {
    match p
    case Preserve => "Conserva identidad, facciones, iluminaci\U{00F3}n y fondo de la imagen original. "
    case HairOnly => "No alteres la cara ni los rasgos; modifica \U{00FA}nicamente el cabello con resultado fotorealista y coherente con las sombras existentes. "
    case StrengthLine(s) => "Intensidad del cambio aproximada: " + Decimal(s) + "/100. "
    case StyleLine(Bald) => "Aplica cabeza calva/afeitada completamente (buzz zero): elimina el cabello de la parte superior y laterales, mant\U{00E9}n forma del cr\U{00E1}neo natural, textura realista de cuero cabelludo y sombreado suave. No modifiques cejas ni barba si existen. "
    case StyleLine(Styled(style)) => "Aplica de forma clara el estilo '" + style + "' con transiciones y volumen acordes al tipo y densidad de pelo, evitando l\U{00ED}neas falsas en la implantaci\U{00F3}n. "
    case StyleLine(Automatic) => "Selecciona autom\U{00E1}ticamente un corte favorecedor (fade medio o crop texturizado) seg\U{00FA}n el rostro. "
    case IntensityLine(Marked) => "El cambio debe ser marcado y evidente respecto a la foto original, manteniendo naturalidad. "
    case IntensityLine(Moderate) => "Realiza un cambio visible pero moderado, con contornos coherentes. "
    case IntensityLine(Subtle) => "Haz un ajuste sutil y realista sin alterar la identidad. "
    case Avoid => "Evita cambios en piel, ojos, cejas, barba, ropa y fondo. "
    case Notes(description) => "Notas del usuario: " + description + ". "
    case Output => "Salida: imagen fotogr\U{00E1}fica sin texto superpuesto ni marcas, aspecto profesional."
  }

  /** The sentences of `buildImageEditPrompt`, in the order they are appended. */
  function PromptSentences(faceDescription: Option<string>, style: Option<string>, strength: Option<int>): seq<Sentence> {
    var s := Strength(strength);
    [Preserve, HairOnly, StrengthLine(s), StyleLine(ChooseStyle(style)), IntensityLine(Tier(s)), Avoid]
    + (if faceDescription.Some? && !IsBlank(faceDescription.value) then [Notes(faceDescription.value)] else [])
    + [Output]
  }

  function Concat(parts: seq<Sentence>): string {
    if parts == [] then "" else Wording(parts[0]) + Concat(parts[1..])
  }

  /** `buildImageEditPrompt(faceDescription, style, strength)` */
  function BuildImageEditPrompt(faceDescription: Option<string>, style: Option<string>, strength: Option<int>): string {
    Concat(PromptSentences(faceDescription, style, strength))
  }

  /** `buildImageEditPrompt(faceDescription, style, strength)`, appending sentence by sentence. */
  method BuildPrompt(faceDescription: Option<string>, style: Option<string>, strength: Option<int>) returns (prompt: string)
    ensures prompt == BuildImageEditPrompt(faceDescription, style, strength)
  {
    var parts := [Preserve, HairOnly];
    var s := if strength.Some? then (if strength.value > 100 then 100 else if strength.value < 0 then 0 else strength.value) else 70;
    assert s == Strength(strength);
    parts := parts + [StrengthLine(s)];
    var choice: StyleChoice;
    if style.Some? && !IsBlank(style.value) {
      var st := ToLower(style.value);
      var wantsBald := Contains(st, "calvo") || Contains(st, "afeitado total") || Contains(st, "shaved") || Contains(st, "buzz zero");
      BaldKeywordsListed(st);
      if wantsBald {
        choice := Bald;
      } else {
        choice := Styled(style.value);
      }
    } else {
      choice := Automatic;
    }
    assert choice == ChooseStyle(style);
    parts := parts + [StyleLine(choice)];
    if s >= 80 {
      parts := parts + [IntensityLine(Marked)];
    } else if s >= 50 {
      parts := parts + [IntensityLine(Moderate)];
    } else {
      parts := parts + [IntensityLine(Subtle)];
    }
    parts := parts + [Avoid];
    assert parts == [Preserve, HairOnly, StrengthLine(s), StyleLine(ChooseStyle(style)), IntensityLine(Tier(s)), Avoid];
    if faceDescription.Some? && !IsBlank(faceDescription.value) {
      parts := parts + [Notes(faceDescription.value)];
    }
    parts := parts + [Output];
    assert parts == PromptSentences(faceDescription, style, strength);
    prompt := Concat(parts);
  }

  /** The four tests of `wantsBald` are the bald keywords. */
  lemma BaldKeywordsListed(st: string)
    ensures (exists i :: 0 <= i < |BaldKeywords| && Contains(st, BaldKeywords[i])) <==>
      Contains(st, "calvo") || Contains(st, "afeitado total") || Contains(st, "shaved") || Contains(st, "buzz zero")
  {
    assert BaldKeywords[0] == "calvo" && BaldKeywords[1] == "afeitado total";
    assert BaldKeywords[2] == "shaved" && BaldKeywords[3] == "buzz zero";
  }

  /**
   * Exactly one intensity sentence is appended, and it is the one for the
   * clamped strength: marked from 80, moderate from 50, subtle below.
   */
  lemma ExactlyOneIntensity(faceDescription: Option<string>, style: Option<string>, strength: Option<int>)
    ensures var ps := PromptSentences(faceDescription, style, strength);
      var s := Strength(strength);
      && (exists i :: 0 <= i < |ps| && ps[i].IntensityLine?)
      && (forall i, j :: 0 <= i < |ps| && 0 <= j < |ps| && ps[i].IntensityLine? && ps[j].IntensityLine? ==> i == j)
      && (forall i :: 0 <= i < |ps| && ps[i].IntensityLine? ==>
            && (s >= 80 ==> ps[i].tier == Marked)
            && (50 <= s < 80 ==> ps[i].tier == Moderate)
            && (s < 50 ==> ps[i].tier == Subtle))
  {
    var ps := PromptSentences(faceDescription, style, strength);
    assert ps[4].IntensityLine?;
  }

  /** The strength sentence carries the clamped strength. */
  lemma StrengthStated(faceDescription: Option<string>, style: Option<string>, strength: Option<int>)
    ensures var ps := PromptSentences(faceDescription, style, strength);
      && (forall i :: 0 <= i < |ps| && ps[i].StrengthLine? ==> ps[i].strength == Strength(strength))
      && (exists i :: 0 <= i < |ps| && ps[i].StrengthLine?)
  {
    assert PromptSentences(faceDescription, style, strength)[2].StrengthLine?;
  }

  /**
   * The style sentence: the shaved-head one exactly when the lower-cased
   * style contains a bald keyword, the automatic pick for a `null` or blank
   * style, and otherwise the style quoted as given.
   */
  lemma StyleSelection(style: Option<string>)
    ensures ChooseStyle(style) == Bald <==>
      (style.Some? && !IsBlank(style.value) &&
       exists i :: 0 <= i < |BaldKeywords| && Contains(ToLower(style.value), BaldKeywords[i]))
    ensures ChooseStyle(style) == Automatic <==> style.None? || IsBlank(style.value)
    ensures ChooseStyle(style).Styled? ==> ChooseStyle(style).style == style.value
  {
  }

  /** Bald mode depends only on the lower-cased style: "CALVO" asks for it as "calvo" does. */
  lemma BaldIgnoresCase(a: string, b: string)
    requires ToLower(a) == ToLower(b) && !IsBlank(a) && !IsBlank(b)
    ensures ChooseStyle(Some(a)).Bald? <==> ChooseStyle(Some(b)).Bald?
  {
  }

  /** User notes are appended exactly when the face description is neither `null` nor blank. */
  lemma NotesOnlyWhenGiven(faceDescription: Option<string>, style: Option<string>, strength: Option<int>)
    ensures (exists i :: 0 <= i < |PromptSentences(faceDescription, style, strength)| && PromptSentences(faceDescription, style, strength)[i].Notes?)
      <==> faceDescription.Some? && !IsBlank(faceDescription.value)
  {
    var ps := PromptSentences(faceDescription, style, strength);
    if faceDescription.Some? && !IsBlank(faceDescription.value) {
      assert ps[6].Notes?;
    }
  }

  // ---------------------------------------------------------------------------
  // The gate of editHair
  // ---------------------------------------------------------------------------

  /** What `editHair` does: hand back the original bytes, or ask the provider with a prompt. */
  datatype EditStep = Original(bytes: seq<bv8>) | EditRequest(image: seq<bv8>, prompt: string)

  /** `editHair(...)` up to the provider call. */
  function EditHair(imageBytes: seq<bv8>, faceDescription: Option<string>, style: Option<string>, strength: Option<int>, apiKey: string): (r: EditStep) {
    if IsBlank(apiKey) then Original(imageBytes)
    else EditRequest(imageBytes, BuildImageEditPrompt(faceDescription, style, strength))
  }

  /** Without a key the image comes back unchanged; with one, the provider gets the image and the prompt. */
  lemma EditHairGate(imageBytes: seq<bv8>, faceDescription: Option<string>, style: Option<string>, strength: Option<int>, apiKey: string)
    ensures IsBlank(apiKey) ==> EditHair(imageBytes, faceDescription, style, strength, apiKey) == Original(imageBytes)
    ensures !IsBlank(apiKey) ==>
      (EditHair(imageBytes, faceDescription, style, strength, apiKey).EditRequest? &&
       EditHair(imageBytes, faceDescription, style, strength, apiKey).image == imageBytes)
  {
  }
}
