/** The server's keyword classifier (`CATEGORIES` and `classify_text_simple`): the text
    is lower-cased, and the first category, in declaration order, owning a keyword that
    occurs in it as a whole word names the result; otherwise the result is "Otros". */
module Classifier {
  import opened Text
  import CategoryOptions

  /** The Python-side character facts the classifier and the scraper depend on:
      `str.lower()`, the regex word class `\w` and `str.isspace()`. They are Unicode
      tables, so they are left abstract. */
  datatype PyText = PyText(lower: string -> string, isWord: char -> bool, isSpace: char -> bool)

  datatype Category = Category(key: string, keywords: seq<string>)

  /** `CATEGORIES`, in the dictionary's insertion order. */
  const Categories: seq<Category> := [
    Category("programación", ["algoritmo", "código", "desarrollo", "software", "python", "java", "html", "css", "javascript", "framework", "mongodb", "flask"]),
    Category("tecnología", ["noticias", "gadgets", "inteligencia artificial", "ia", "computación", "hardware", "cyberseguridad"]),
    Category("finanzas", ["economía", "inversión", "bolsa", "crypto", "criptomoneda", "trading", "mercado", "negocios"]),
    Category("deportes", ["fútbol", "baloncesto", "tenis", "formula 1", "juegos olímpicos", "deporte", "partido"]),
    Category("música", ["canción", "álbum", "artista", "banda", "género musical", "concierto", "video musical"]),
    Category("educación", ["tutorial", "aprender", "curso", "universidad", "escuela", "historia", "ciencia"])
  ]

  /** The labels `category.capitalize()` yields, in table order. */
  const Labels: seq<string> := ["Programación", "Tecnología", "Finanzas", "Deportes", "Música", "Educación"]

  /** `capitalize()` on one key: the rest of the key is already lower case. */
  lemma CapitalizeKey(key: string, shown: string)
    requires key != [] && shown != [] && 'a' <= key[0] <= 'z'
    requires shown[0] == UpperAscii(key[0]) && shown[1..] == key[1..]
    requires LowerAll(key[1..]) == key[1..]
    ensures Capitalize(key) == shown
  {
    assert shown == [shown[0]] + shown[1..];
  }

  lemma LabelsAreCapitalizedKeys()
    ensures |Labels| == |Categories|
    ensures forall c :: 0 <= c < |Categories| ==> Capitalize(Categories[c].key) == Labels[c]
  {
    forall c | 0 <= c < |Categories|
      ensures Capitalize(Categories[c].key) == Labels[c]
    {
      var key := Categories[c].key;
      if c == 0 {
        assert LowerAll("rogramación") == "rogramación";
        CapitalizeKey(key, Labels[c]);
      } else if c == 1 {
        assert LowerAll("ecnología") == "ecnología";
        CapitalizeKey(key, Labels[c]);
      } else if c == 2 {
        assert LowerAll("inanzas") == "inanzas";
        CapitalizeKey(key, Labels[c]);
      } else if c == 3 {
        assert LowerAll("eportes") == "eportes";
        CapitalizeKey(key, Labels[c]);
      } else if c == 4 {
        assert LowerAll("úsica") == "úsica";
        CapitalizeKey(key, Labels[c]);
      } else {
        assert LowerAll("ducación") == "ducación";
        CapitalizeKey(key, Labels[c]);
      }
    }
  }

  /** Every label the classifier can return is offered by the client's category list. */
  lemma LabelsAreOptions()
    ensures forall c :: 0 <= c < |Labels| ==> CategoryOptions.IsOption(Labels[c])
    ensures CategoryOptions.IsOption(CategoryOptions.Other)
    ensures CategoryOptions.Other !in Labels
  {
    assert CategoryOptions.Options[0] == Labels[0];
    assert CategoryOptions.Options[2] == Labels[1];
    assert CategoryOptions.Options[3] == Labels[2];
    assert CategoryOptions.Options[4] == Labels[3];
    assert CategoryOptions.Options[5] == Labels[4];
    assert CategoryOptions.Options[6] == Labels[5];
    assert CategoryOptions.Options[7] == CategoryOptions.Other;
  }

  /* ---------- whole-word search ---------- */

  /** The regex `\b` holds at position `i`: exactly one of the two characters around
      it is a word character (a text edge counts as a non-word character). */
  predicate Boundary(t: string, i: nat, isWord: char -> bool)
    requires i <= |t|
  {
    (i > 0 && isWord(t[i - 1])) != (i < |t| && isWord(t[i]))
  }

  /** The pattern `\b` + `re.escape(kw)` + `\b` matches `t` at position `i`. */
  predicate MatchAt(t: string, kw: string, i: nat, isWord: char -> bool) {
    && i + |kw| <= |t|
    && t[i..i + |kw|] == kw
    && Boundary(t, i, isWord)
    && Boundary(t, i + |kw|, isWord)
  }

  /** `re.search(...)` finds a match somewhere in `t`. */
  predicate Search(t: string, kw: string, isWord: char -> bool) {
    exists i :: 0 <= i <= |t| - |kw| && MatchAt(t, kw, i, isWord)
  }

  /** `kw` occurs at `i` with no word character right before or right after it. */
  predicate WholeWordAt(t: string, kw: string, i: nat, isWord: char -> bool) {
    && i + |kw| <= |t|
    && t[i..i + |kw|] == kw
    && (i == 0 || !isWord(t[i - 1]))
    && (i + |kw| == |t| || !isWord(t[i + |kw|]))
  }

  /** `kw` begins and ends with a word character. */
  predicate Delimited(kw: string, isWord: char -> bool) {
    |kw| > 0 && isWord(kw[0]) && isWord(kw[|kw| - 1])
  }

  /** Every keyword of the table begins and ends with a word character. */
  predicate KeywordsDelimited(isWord: char -> bool) {
    forall c, k :: 0 <= c < |Categories| && 0 <= k < |Categories[c].keywords| ==>
      Delimited(Categories[c].keywords[k], isWord)
  }

  /** For a keyword that begins and ends with a word character, the `\b` pattern
      matches exactly at the whole-word occurrences. */
  lemma MatchIsWholeWord(t: string, kw: string, i: nat, isWord: char -> bool)
    requires Delimited(kw, isWord)
    ensures MatchAt(t, kw, i, isWord) <==> WholeWordAt(t, kw, i, isWord)
  {
    if i + |kw| <= |t| && t[i..i + |kw|] == kw {
      assert t[i] == kw[0];
      assert t[i + |kw| - 1] == kw[|kw| - 1];
    }
  }

  /** An occurrence glued to a preceding word character is not a match. */
  lemma EmbeddedOccurrenceNoMatch(t: string, kw: string, i: nat, isWord: char -> bool)
    requires Delimited(kw, isWord)
    requires 0 < i <= |t| && isWord(t[i - 1])
    ensures !MatchAt(t, kw, i, isWord)
  {
    MatchIsWholeWord(t, kw, i, isWord);
  }

  /** "ia" inside "media" is not found. */
  lemma IaInsideMedia(isWord: char -> bool)
    requires isWord('d') && isWord('i') && isWord('a')
    ensures !Search("media", "ia", isWord)
  {
    forall i | 0 <= i <= 3
      ensures !MatchAt("media", "ia", i, isWord)
    {
      if i == 3 {
        EmbeddedOccurrenceNoMatch("media", "ia", i, isWord);
      } else {
        assert "media"[i..i + 2] != "ia" by {
          assert "media"[i..i + 2][0] == "media"[i];
        }
      }
    }
  }

  /* ---------- classification ---------- */

  /** Some keyword of `c` is found in `t`. */
  predicate EntryMatches(t: string, c: Category, isWord: char -> bool) {
    exists k :: 0 <= k < |c.keywords| && Search(t, c.keywords[k], isWord)
  }

  /** Entry `c` is the first of the table, in declaration order, that matches. */
  predicate FirstMatch(t: string, c: nat, isWord: char -> bool) {
    && c < |Categories|
    && EntryMatches(t, Categories[c], isWord)
    && forall j :: 0 <= j < c ==> !EntryMatches(t, Categories[j], isWord)
  }

  /** The inner loop: some keyword from position `k` on is found. */
  function AnyKeywordFrom(t: string, keywords: seq<string>, k: nat, isWord: char -> bool): (found: bool)
    requires k <= |keywords|
    ensures found <==> exists j :: k <= j < |keywords| && Search(t, keywords[j], isWord)
    decreases |keywords| - k
  {
    if k == |keywords| then false
    else Search(t, keywords[k], isWord) || AnyKeywordFrom(t, keywords, k + 1, isWord)
  }

  /** The outer loop, from table entry `c` on. */
  function ClassifyFrom(t: string, c: nat, isWord: char -> bool): (r: string)
    requires c <= |Categories|
    ensures r == CategoryOptions.Other || r in Labels
    ensures r == CategoryOptions.Other <==> forall j :: c <= j < |Categories| ==> !EntryMatches(t, Categories[j], isWord)
    ensures forall j :: c <= j < |Categories| && EntryMatches(t, Categories[j], isWord) ==>
      (forall i :: c <= i < j ==> !EntryMatches(t, Categories[i], isWord)) ==> r == Labels[j]
    decreases |Categories| - c
  {
    LabelsAreOptions();
    if c == |Categories| then CategoryOptions.Other
    else if AnyKeywordFrom(t, Categories[c].keywords, 0, isWord) then
      LabelsAreCapitalizedKeys();
      Capitalize(Categories[c].key)
    else ClassifyFrom(t, c + 1, isWord)
  }

  /** `classify_text_simple(text)`. */
  function ClassifyTextSimple(text: string, py: PyText): (r: string)
    ensures var t := py.lower(text);
      && (r == CategoryOptions.Other <==> forall j :: 0 <= j < |Categories| ==> !EntryMatches(t, Categories[j], py.isWord))
      && (forall j: nat :: FirstMatch(t, j, py.isWord) ==> r == Labels[j])
    ensures CategoryOptions.IsOption(r)
  {
    LabelsAreOptions();
    ClassifyFrom(py.lower(text), 0, py.isWord)
  }

  /** With keywords that begin and end in word characters, the label is that of the
      first entry owning a whole-word occurrence in the lower-cased text. */
  lemma ClassifyByWholeWords(text: string, py: PyText, c: nat, k: nat, i: nat)
    requires KeywordsDelimited(py.isWord)
    requires c < |Categories| && k < |Categories[c].keywords|
    requires WholeWordAt(py.lower(text), Categories[c].keywords[k], i, py.isWord)
    requires forall j :: 0 <= j < c ==> !EntryMatches(py.lower(text), Categories[j], py.isWord)
    ensures ClassifyTextSimple(text, py) == Labels[c]
  {
    var t := py.lower(text);
    var kw := Categories[c].keywords[k];
    MatchIsWholeWord(t, kw, i, py.isWord);
    assert Search(t, kw, py.isWord);
    assert FirstMatch(t, c, py.isWord);
  }
}
