/**
 * `DefaultTextRelevanceStrategy`: decides whether a chat text is about
 * haircuts by counting which domain keywords and which off-topic keywords
 * occur in it, after lower-casing and trimming.
 */
module TextRelevance {
  import opened Text
  import opened Entities

  /** The domain keywords, in the groups the source lists them in. */
  const CoreWords: seq<string> := [
    "corte", "barba", "estilo", "estetica", "est\U{00E9}tica", "facciones", "cara", "rostro",
    "cabello", "pelo", "textura", "tipo de cabello", "barberia", "barber\U{00ED}a", "degradado", "fade"]
  const FacialFeatures: seq<string> := [
    "frente", "pomulos", "p\U{00F3}mulos", "menton", "ment\U{00F3}n", "mandibula", "mand\U{00ED}bula",
    "perfil", "patillas", "bigote"]
  const FaceShapes: seq<string> := ["oval", "redond", "triangular", "diamante", "cuadrad", "alargad", "estrech"]
  const CommonStyles: seq<string> := [
    "pompadour", "quiff", "mullet", "crop", "crew", "side part", "linea", "raya", "buzz", "undercut"]
  const ContextVerbs: seq<string> := ["me queda", "me favorece", "recomend", "suger", "cambiar corte", "barbero"]

  const Domain: seq<string> := CoreWords + FacialFeatures + FaceShapes + CommonStyles + ContextVerbs

  /** The off-topic keywords, each costing one point. */
  const OffTopic: seq<string> := [
    "clima", "chiste", "comida", "politica", "pol\U{00ED}tica", "videojuego", "programacion", "programaci\U{00F3}n",
    "tarea", "deberes", "auto", "mustang", "coche", "finanzas", "medicina", "juego", "deporte"]

  /** How many entries of `keys` occur in `t`, counting each entry once however often it occurs. */
  function Hits(t: string, keys: seq<string>): (r: nat)
    ensures r <= |keys|
  {
    if keys == [] then 0
    else Hits(t, keys[..|keys| - 1]) + (if Contains(t, keys[|keys| - 1]) then 1 else 0)
  }

  /** The text the keywords are searched in: `null` as "", lower-cased, then trimmed. */
  function Normalize(text: Option<string>): string {
    Trim(ToLower(text.GetOr("")))
  }

  function Score(t: string): int {
    Hits(t, Domain) - Hits(t, OffTopic)
  }

  /** `isRelevantText(text)`: a non-empty normalized text scoring at least 2. */
  predicate Relevant(text: Option<string>) {
    var t := Normalize(text);
    t != [] && Score(t) >= 2
  }

  /** `isRelevantText(text)` */
  method IsRelevantText(text: Option<string>) returns (r: bool)
    ensures r == Relevant(text)
  {
    var t := Trim(ToLower(text.GetOr("")));
    if t == [] {
      return false;
    }
    var plus := CountHits(t, Domain);
    var minus := CountHits(t, OffTopic);
    r := plus as int - minus >= 2;
  }

  /** One counting loop: `for (String k : keys) if (t.contains(k)) score++`. */
  method CountHits(t: string, keys: seq<string>) returns (n: nat)
    ensures n == Hits(t, keys)
  {
    n := 0;
    var i := 0;
    while i < |keys|
      invariant 0 <= i <= |keys|
      invariant n == Hits(t, keys[..i])
    {
      assert keys[..i + 1][..i] == keys[..i];
      if Contains(t, keys[i]) {
        n := n + 1;
      }
      i := i + 1;
    }
    assert keys[..|keys|] == keys;
  }

  // ---------------------------------------------------------------------------
  // Counting
  // ---------------------------------------------------------------------------

  /** The indices of the entries of `keys` that occur in `t`. */
  function Present(t: string, keys: seq<string>): set<int> {
    set i | 0 <= i < |keys| && Contains(t, keys[i])
  }

  /** `Hits` is the number of keyword entries present: each counts once, however often it occurs. */
  lemma {:induction false} HitsCountsPresent(t: string, keys: seq<string>)
    ensures Hits(t, keys) == |Present(t, keys)|
  {
    if keys != [] {
      var n := |keys| - 1;
      HitsCountsPresent(t, keys[..n]);
      PresentOfLast(t, keys);
      assert n !in Present(t, keys[..n]);
    }
  }

  /** The entries present in `keys` are those present before its last entry, and that one if it occurs. */
  lemma PresentOfLast(t: string, keys: seq<string>)
    requires keys != []
    ensures var n := |keys| - 1;
      Present(t, keys) == Present(t, keys[..n]) + (if Contains(t, keys[n]) then {n} else {})
  {
    var n := |keys| - 1;
    forall i | i in Present(t, keys) ensures i in Present(t, keys[..n]) + (if Contains(t, keys[n]) then {n} else {}) {
      if i < n {
        assert keys[..n][i] == keys[i];
      }
    }
    forall i | i in Present(t, keys[..n]) ensures i in Present(t, keys) {
      assert keys[..n][i] == keys[i];
    }
  }

  /** The count depends only on which keywords occur: texts with the same keywords present score the same. */
  lemma {:induction false} HitsPresenceOnly(t: string, u: string, keys: seq<string>)
    requires forall i :: 0 <= i < |keys| ==> (Contains(t, keys[i]) <==> Contains(u, keys[i]))
    ensures Hits(t, keys) == Hits(u, keys)
  {
    if keys != [] {
      HitsPresenceOnly(t, u, keys[..|keys| - 1]);
    }
  }

  /** Two different entries that both occur count two. */
  lemma HitsAtLeastTwo(t: string, keys: seq<string>, i: int, j: int)
    requires 0 <= i < |keys| && 0 <= j < |keys| && i != j
    requires Contains(t, keys[i]) && Contains(t, keys[j])
    ensures Hits(t, keys) >= 2
  {
    HitsCountsPresent(t, keys);
    SubsetCard({i, j}, Present(t, keys));
  }

  /** An entry that occurs counts. */
  lemma HitsAtLeastOne(t: string, keys: seq<string>, i: int)
    requires 0 <= i < |keys| && Contains(t, keys[i])
    ensures Hits(t, keys) >= 1
  {
    HitsCountsPresent(t, keys);
    assert i in Present(t, keys);
  }

  /** No entry that occurs, no hit. */
  lemma HitsNone(t: string, keys: seq<string>)
    requires forall i :: 0 <= i < |keys| ==> !Contains(t, keys[i])
    ensures Hits(t, keys) == 0
  {
    HitsCountsPresent(t, keys);
    assert Present(t, keys) == {};
  }

  // ---------------------------------------------------------------------------
  // Properties of the scorer
  // ---------------------------------------------------------------------------

  /** Lower-casing keeps whitespace. */
  lemma ToLowerKeepsBlank(s: string)
    requires IsBlank(s)
    ensures IsBlank(ToLower(s))
  {
  }

  /** A blank text contains no text that starts with a non-whitespace character. */
  lemma BlankContainsNoWord(t: string, k: string)
    requires IsBlank(t) && |k| > 0 && !IsWhitespace(k[0])
    ensures !Contains(t, k)
  {
  }

  /** A keyword: non-empty, starting with a lower-case ASCII letter. */
  predicate Word(k: string) {
    |k| > 0 && 'a' <= k[0] <= 'z'
  }

  lemma KeywordsAreWords()
    ensures forall i :: 0 <= i < |Domain| ==> Word(Domain[i])
    ensures forall i :: 0 <= i < |OffTopic| ==> Word(OffTopic[i])
  {
    assert forall i :: 0 <= i < |CoreWords| ==> Word(CoreWords[i]);
    assert forall i :: 0 <= i < |FacialFeatures| ==> Word(FacialFeatures[i]);
    assert forall i :: 0 <= i < |FaceShapes| ==> Word(FaceShapes[i]);
    assert forall i :: 0 <= i < |CommonStyles| ==> Word(CommonStyles[i]);
    assert forall i :: 0 <= i < |ContextVerbs| ==> Word(ContextVerbs[i]);
  }

  /** Normalizing a `null` or blank text gives a blank text. */
  lemma NormalizeBlank(text: Option<string>)
    requires text.None? || IsBlank(text.value)
    ensures IsBlank(Normalize(text))
  {
    ToLowerKeepsBlank(text.GetOr(""));
    TrimKeepsBlank(ToLower(text.GetOr("")));
  }

  /** Trimming keeps a text blank. */
  lemma TrimKeepsBlank(s: string)
    requires IsBlank(s)
    ensures IsBlank(Trim(s))
  {
    forall i | 0 <= i < |Trim(s)| ensures IsWhitespace(Trim(s)[i]) {
      TrimChars(s, Trim(s)[i]);
    }
  }

  /** A blank text hits no keyword. */
  lemma BlankHitsNone(t: string, keys: seq<string>)
    requires IsBlank(t) && forall i :: 0 <= i < |keys| ==> Word(keys[i])
    ensures Hits(t, keys) == 0
  {
    forall i | 0 <= i < |keys| ensures !Contains(t, keys[i]) {
      BlankContainsNoWord(t, keys[i]);
    }
    HitsNone(t, keys);
  }

  /** `null`, empty and whitespace-only texts are not relevant. */
  lemma BlankNotRelevant(text: Option<string>)
    requires text.None? || IsBlank(text.value)
    ensures !Relevant(text)
  {
    NormalizeBlank(text);
    KeywordsAreWords();
    BlankHitsNone(Normalize(text), Domain);
  }

  /** Texts with the same lower-cased form are judged alike: only `toLowerCase()` is read. */
  lemma IgnoresCase(a: string, b: string)
    requires ToLower(a) == ToLower(b)
    ensures Relevant(Some(a)) <==> Relevant(Some(b))
  {
  }

  lemma CorteInCambiarCorte()
    ensures Contains("cambiar corte", "corte")
  {
    assert "cambiar corte"[8..13] == "corte";
    ContainsAt("cambiar corte", "corte", 8);
  }

  lemma DomainEntries()
    ensures |Domain| == 49 && Domain[0] == "corte" && Domain[47] == "cambiar corte"
  {
  }

  /**
   * Nested keywords each count: a text containing "cambiar corte" also
   * contains "corte", so it has two domain hits and is relevant unless an
   * off-topic keyword occurs.
   */
  lemma NestedKeywordsCount(text: Option<string>)
    requires Contains(Normalize(text), "cambiar corte")
    ensures Hits(Normalize(text), Domain) >= 2
    ensures Hits(Normalize(text), OffTopic) == 0 ==> Relevant(text)
  {
    var t := Normalize(text);
    CorteInCambiarCorte();
    ContainsTransitive(t, "cambiar corte", "corte");
    DomainEntries();
    HitsAtLeastTwo(t, Domain, 0, 47);
  }

  lemma JuegoInVideojuego()
    ensures Contains("videojuego", "juego")
  {
    assert "videojuego"[5..10] == "juego";
    ContainsAt("videojuego", "juego", 5);
  }

  lemma OffTopicEntries()
    ensures |OffTopic| == 17 && OffTopic[5] == "videojuego" && OffTopic[15] == "juego"
  {
  }

  /** "videojuego" costs two points: it also contains the off-topic "juego". */
  lemma VideojuegoCostsTwo(text: Option<string>)
    requires Contains(Normalize(text), "videojuego")
    ensures Hits(Normalize(text), OffTopic) >= 2
  {
    var t := Normalize(text);
    JuegoInVideojuego();
    ContainsTransitive(t, "videojuego", "juego");
    OffTopicEntries();
    HitsAtLeastTwo(t, OffTopic, 5, 15);
  }
}
