/**
 * Query expansion before keyword search (backend/query_preprocessor.py):
 * known abbreviations are expanded in place, synonyms of known terms are
 * appended, duplicates are dropped keeping first occurrences, and the terms
 * not already in the query are appended to the stripped query.
 */
module QueryPreprocessor {
  import opened Text

  /**
   * Abbreviation -> expansions. The table is only looked up, never iterated,
   * so the order of its entries plays no part; "oop" is listed last here.
   */
  const Abbreviations: map<string, seq<string>> := map[
    "api" := ["application programming interface"],
    "sql" := ["structured query language"],
    "html" := ["hypertext markup language"],
    "css" := ["cascading style sheets"],
    "js" := ["javascript"],
    "http" := ["hypertext transfer protocol"],
    "https" := ["hypertext transfer protocol secure"],
    "url" := ["uniform resource locator"],
    "uri" := ["uniform resource identifier"],
    "json" := ["javascript object notation"],
    "xml" := ["extensible markup language"],
    "rest" := ["representational state transfer"],
    "soap" := ["simple object access protocol"],
    "crud" := ["create read update delete"],
    "mvc" := ["model view controller"],
    "orm" := ["object relational mapping"],
    "dbms" := ["database management system"],
    "rdbms" := ["relational database management system"],
    "nosql" := ["not only sql"],
    "ai" := ["artificial intelligence"],
    "ml" := ["machine learning"],
    "dl" := ["deep learning"],
    "nlp" := ["natural language processing"],
    "cv" := ["computer vision"],
    "cnn" := ["convolutional neural network"],
    "rnn" := ["recurrent neural network"],
    "lstm" := ["long short-term memory"],
    "gpu" := ["graphics processing unit"],
    "cpu" := ["central processing unit"],
    "ram" := ["random access memory"],
    "rom" := ["read only memory"],
    "os" := ["operating system"],
    "ide" := ["integrated development environment"],
    "sdk" := ["software development kit"],
    "cli" := ["command line interface"],
    "gui" := ["graphical user interface"],
    "ui" := ["user interface"],
    "ux" := ["user experience"],
    "tcp" := ["transmission control protocol"],
    "udp" := ["user datagram protocol"],
    "ip" := ["internet protocol"],
    "dns" := ["domain name system"],
    "ftp" := ["file transfer protocol"],
    "ssh" := ["secure shell"],
    "ssl" := ["secure sockets layer"],
    "tls" := ["transport layer security"],
    "oop" := ["object-oriented programming", "object oriented programming"]
  ]

  /** Term -> synonyms also searched for. */
  const Synonyms: map<string, seq<string>> := map[
    "function" := ["method", "procedure", "routine"],
    "variable" := ["var", "identifier"],
    "class" := ["type", "object"],
    "array" := ["list", "collection"],
    "loop" := ["iteration", "repeat"],
    "condition" := ["if", "statement"],
    "algorithm" := ["procedure", "method"],
    "data structure" := ["structure", "container"],
    "database" := ["db", "data store"],
    "server" := ["host", "node"],
    "client" := ["user", "browser"]
  ]

  /** The two lookup tables a preprocessor is built with. */
  datatype Tables = Tables(abbreviations: map<string, seq<string>>, synonyms: map<string, seq<string>>)

  /** The tables `QueryPreprocessor.__init__` installs. */
  const Builtin := Tables(Abbreviations, Synonyms)

  /** The lookup key of a query word: its word characters only. */
  function CleanWord(w: string): string {
    KeepWordChars(w)
  }

  /** A word followed, when it is a known abbreviation, by the abbreviation's expansions. */
  function ExpandWord(t: Tables, w: string): seq<string> {
    var c := CleanWord(w);
    [w] + (if c in t.abbreviations then t.abbreviations[c] else [])
  }

  function ExpandedTerms(t: Tables, words: seq<string>): (r: seq<string>)
    ensures |r| >= |words|
  {
    if words == [] then []
    else ExpandedTerms(t, words[..|words| - 1]) + ExpandWord(t, words[|words| - 1])
  }

  function SynonymsOf(t: Tables, w: string): seq<string> {
    var c := CleanWord(w);
    if c in t.synonyms then t.synonyms[c] else []
  }

  function SynonymTerms(t: Tables, words: seq<string>): seq<string> {
    if words == [] then []
    else SynonymTerms(t, words[..|words| - 1]) + SynonymsOf(t, words[|words| - 1])
  }

  /** The terms of `s` without repeats, each at its first occurrence. */
  function Dedup(s: seq<string>): seq<string> {
    if s == [] then []
    else
      var d := Dedup(s[..|s| - 1]);
      if s[|s| - 1] in d then d else d + [s[|s| - 1]]
  }

  /** `[t for t in unique if t not in words]` */
  function Novel(unique: seq<string>, words: seq<string>): (r: seq<string>)
    ensures forall t | t in r :: t in unique && t !in words
  {
    if unique == [] then []
    else if unique[0] in words then Novel(unique[1..], words)
    else [unique[0]] + Novel(unique[1..], words)
  }

  lemma LowerIdentity(s: string)
    requires IsLower(s)
    ensures Lower(s) == s
  {
  }

  lemma {:induction false} CleanWordIdentity(w: string)
    requires forall i :: 0 <= i < |w| ==> IsWordChar(w[i])
    ensures CleanWord(w) == w
  {
    if w != [] {
      CleanWordIdentity(w[1..]);
      assert w == [w[0]] + w[1..];
    }
  }

  /** The lowercase whitespace-separated words of the stripped query. */
  function QueryWords(query: string): seq<string> {
    SplitWhitespace(Lower(Strip(query)))
  }

  function UniqueTerms(t: Tables, query: string): seq<string> {
    var words := QueryWords(query);
    Dedup(ExpandedTerms(t, words) + SynonymTerms(t, words))
  }

  /** Step 4: the stripped query, followed by the new terms when there are more unique terms than words. */
  function Reconstruct(original: string, words: seq<string>, unique: seq<string>): string {
    if |unique| > |words| then original + " " + Join(" ", Novel(unique, words)) else original
  }

  /** What `preprocess` returns for `query`. */
  function PreprocessSpec(t: Tables, query: string): string {
    if IsBlank(query) then query
    else Strip(Reconstruct(Strip(query), QueryWords(query), UniqueTerms(t, query)))
  }

  /** `preprocess`: expand abbreviations, add synonyms, drop duplicates, append the new terms. */
  method Preprocess(t: Tables, query: string) returns (r: string)
    ensures r == PreprocessSpec(t, query)
  {
    if IsBlank(query) {
      return query;
    }
    var original := Strip(query);
    var queryLower := Lower(original);
    var words := SplitWhitespace(queryLower);
    var expanded := ExpandAbbreviations(t, words);
    var synonymTerms := CollectSynonyms(t, words);
    var unique := DropRepeats(expanded + synonymTerms);
    var final: string;
    if |unique| > |words| {
      final := original + " " + Join(" ", Novel(unique, words));
    } else {
      final := original;
    }
    assert final == Reconstruct(Strip(query), QueryWords(query), UniqueTerms(t, query));
    r := Strip(final);
  }

  /** Step 1 of `preprocess`: each word, followed by its expansions when it is an abbreviation. */
  method ExpandAbbreviations(t: Tables, words: seq<string>) returns (expanded: seq<string>)
    ensures expanded == ExpandedTerms(t, words)
  {
    expanded := [];
    var i := 0;
    while i < |words|
      invariant 0 <= i <= |words|
      invariant expanded == ExpandedTerms(t, words[..i])
    {
      var word := words[i];
      var clean := CleanWord(word);
      expanded := expanded + [word];
      if clean in t.abbreviations {
        var expansions := t.abbreviations[clean];
        var j := 0;
        while j < |expansions|
          invariant 0 <= j <= |expansions|
          invariant expanded == ExpandedTerms(t, words[..i]) + [word] + expansions[..j]
        {
          expanded := expanded + [expansions[j]];
          j := j + 1;
        }
        assert expansions[..|expansions|] == expansions;
      }
      assert words[..i + 1][..i] == words[..i];
      i := i + 1;
    }
    assert words[..|words|] == words;
  }

  /** Step 2 of `preprocess`: the synonyms of every word that has some, in word order. */
  method CollectSynonyms(t: Tables, words: seq<string>) returns (synonymTerms: seq<string>)
    ensures synonymTerms == SynonymTerms(t, words)
  {
    synonymTerms := [];
    var i := 0;
    while i < |words|
      invariant 0 <= i <= |words|
      invariant synonymTerms == SynonymTerms(t, words[..i])
    {
      var clean := CleanWord(words[i]);
      if clean in t.synonyms {
        synonymTerms := synonymTerms + t.synonyms[clean];
      }
      assert words[..i + 1][..i] == words[..i];
      i := i + 1;
    }
    assert words[..|words|] == words;
  }

  /** Step 3 of `preprocess`: the `seen`-set loop that keeps first occurrences. */
  method DropRepeats(allTerms: seq<string>) returns (unique: seq<string>)
    ensures unique == Dedup(allTerms)
  {
    var seen: set<string> := {};
    unique := [];
    var i := 0;
    while i < |allTerms|
      invariant 0 <= i <= |allTerms|
      invariant unique == Dedup(allTerms[..i])
      invariant forall t :: t in seen <==> t in unique
    {
      var term := allTerms[i];
      if term !in seen {
        seen := seen + {term};
        unique := unique + [term];
      }
      assert allTerms[..i + 1][..i] == allTerms[..i];
      i := i + 1;
    }
    assert allTerms[..|allTerms|] == allTerms;
  }

  /** `get_expanded_terms`: the whitespace-separated terms of the preprocessed query. */
  method GetExpandedTerms(t: Tables, query: string) returns (terms: seq<string>)
    ensures terms == SplitWhitespace(PreprocessSpec(t, query))
  {
    var pre := Preprocess(t, query);
    terms := SplitWhitespace(pre);
  }

  /** `is_abbreviation`: lowercase, drop non-word characters, look up. */
  function IsAbbreviation(t: Tables, term: string): bool {
    CleanWord(Lower(term)) in t.abbreviations
  }

  /** Every abbreviation has at least one expansion. */
  predicate WellFormed(t: Tables) {
    forall k | k in t.abbreviations :: |t.abbreviations[k]| >= 1
  }

  /** A term is an abbreviation exactly when `preprocess` would expand it as a word. */
  lemma AbbreviationIsExpanded(t: Tables, term: string)
    requires WellFormed(t)
    ensures IsAbbreviation(t, term) <==> |ExpandWord(t, Lower(term))| > 1
  {
  }

  /**
   * A non-blank query comes back stripped and starting with the stripped
   * query: either exactly that, or that followed by a space and more text.
   */
  lemma PreprocessKeepsQuery(t: Tables, query: string)
    requires !IsBlank(query)
    ensures Strip(PreprocessSpec(t, query)) == PreprocessSpec(t, query)
    ensures SpaceExtends(Strip(query), PreprocessSpec(t, query))
  {
    var o := Strip(query);
    ReconstructStripped(o, QueryWords(query), UniqueTerms(t, query));
  }

  /** The final strip of a reconstruction from a stripped non-empty query keeps that query in front. */
  lemma ReconstructStripped(o: string, words: seq<string>, unique: seq<string>)
    requires o != [] && !IsSpace(o[0]) && !IsSpace(o[|o| - 1])
    ensures var r := Strip(Reconstruct(o, words, unique)); Strip(r) == r && SpaceExtends(o, r)
  {
    if |unique| > |words| {
      StripSpaceAppend(o, Join(" ", Novel(unique, words)));
    } else {
      StripStable(o);
    }
  }

  /** The terms of the preprocessed query begin with the words of the stripped query, in their original case. */
  lemma PreprocessWordsFirst(t: Tables, query: string)
    requires !IsBlank(query)
    ensures var o, w := SplitWhitespace(Strip(query)), SplitWhitespace(PreprocessSpec(t, query));
      |o| <= |w| && w[..|o|] == o
  {
    PreprocessKeepsQuery(t, query);
    var o, r := Strip(query), PreprocessSpec(t, query);
    SplitAfterSpace(o, r);
  }

  lemma {:induction false} DedupElements(s: seq<string>)
    ensures forall x :: x in Dedup(s) <==> x in s
  {
    if s != [] {
      DedupElements(s[..|s| - 1]);
      assert s == s[..|s| - 1] + [s[|s| - 1]];
    }
  }

  lemma {:induction false} DedupDistinct(s: seq<string>)
    ensures forall i, j :: 0 <= i < j < |Dedup(s)| ==> Dedup(s)[i] != Dedup(s)[j]
  {
    if s != [] {
      DedupDistinct(s[..|s| - 1]);
    }
  }

  /** Later terms never disturb the order fixed by earlier ones: first occurrences win. */
  lemma {:induction false} DedupPrefix(s: seq<string>, k: nat)
    requires k <= |s|
    ensures Dedup(s[..k]) <= Dedup(s)
    decreases |s|
  {
    if k < |s| {
      DedupPrefix(s[..|s| - 1], k);
      assert s[..|s| - 1][..k] == s[..k];
    } else {
      assert s[..k] == s;
    }
  }

  /** A lowercase word of word characters is its own single query word and its own lookup key. */
  lemma PlainWord(w: string)
    requires w != [] && forall i :: 0 <= i < |w| ==> IsWordChar(w[i]) && !('A' <= w[i] <= 'Z')
    ensures !IsBlank(w) && Strip(w) == w && QueryWords(w) == [w] && CleanWord(w) == w
  {
    assert !IsSpace(w[0]);
    StripStable(w);
    LowerIdentity(w);
    OneRun(w, NotSpace);
    CleanWordIdentity(w);
  }

  /** The same word twice, separated by a space, is two query words. */
  lemma PlainWordTwice(w: string)
    requires w != [] && forall i :: 0 <= i < |w| ==> IsWordChar(w[i]) && !('A' <= w[i] <= 'Z')
    ensures var q := w + " " + w; !IsBlank(q) && Strip(q) == q && QueryWords(q) == [w, w]
  {
    TwiceStripped(w);
    TwiceLower(w);
    TwiceSplit(w);
  }

  lemma TwiceStripped(w: string)
    requires w != [] && forall i :: 0 <= i < |w| ==> IsWordChar(w[i])
    ensures var q := w + " " + w; !IsBlank(q) && Strip(q) == q
  {
    var q := w + " " + w;
    assert !IsSpace(q[0]) && !IsSpace(q[|q| - 1]);
    StripStable(q);
  }

  lemma TwiceLower(w: string)
    requires forall i :: 0 <= i < |w| ==> !('A' <= w[i] <= 'Z')
    ensures Lower(w + " " + w) == w + " " + w
  {
    var q := w + " " + w;
    assert IsLower(q);
    LowerIdentity(q);
  }

  lemma TwiceSplit(w: string)
    requires w != [] && forall i :: 0 <= i < |w| ==> IsWordChar(w[i])
    ensures SplitWhitespace(w + " " + w) == [w, w]
  {
    assert w + " " + w == w + [' '] + w;
    OneRun(w, NotSpace);
    RunsSplitAt(w, ' ', w, NotSpace);
  }

  /** The unique terms of one or two copies of a word with a single expansion and no synonyms. */
  lemma SingleExpansionTerms(t: Tables, w: string, e: string)
    requires CleanWord(w) == w && w in t.abbreviations && t.abbreviations[w] == [e] && e != w
    requires w !in t.synonyms
    ensures Dedup(ExpandedTerms(t, [w]) + SynonymTerms(t, [w])) == [w, e]
    ensures Dedup(ExpandedTerms(t, [w, w]) + SynonymTerms(t, [w, w])) == [w, e]
    ensures Novel([w, e], [w]) == [e]
  {
    assert [w][..0] == [];
    assert ExpandWord(t, w) == [w, e];
    assert [w, w][..1] == [w];
    var all := [w, e, w, e];
    assert ExpandedTerms(t, [w, w]) + SynonymTerms(t, [w, w]) == all by {
      assert ExpandedTerms(t, [w]) == [w, e];
      assert ExpandedTerms(t, [w, w]) == [w, e, w, e];
      assert SynonymTerms(t, [w]) == [];
      assert SynonymTerms(t, [w, w]) == SynonymTerms(t, [w]) + SynonymsOf(t, w);
    }
    ExpansionTerms(t, w, [e]);
    DedupRepeat(w, e);
  }

  /** Repeating two distinct terms adds no unique term. */
  lemma DedupRepeat(w: string, e: string)
    requires w != e
    ensures Dedup([w, e, w, e]) == [w, e]
  {
    var all := [w, e, w, e];
    assert all[..1] == [w];
    assert all[..2] == [w, e];
    assert all[..3] == [w, e, w];
    assert Dedup([w]) == [w];
    assert Dedup([w, e]) == [w, e];
    assert [w, e, w][..2] == [w, e];
    assert Dedup([w, e, w]) == [w, e];
  }

  /**
   * A repeated abbreviation suppresses its expansion: "w" alone is expanded,
   * but "w w" has two words and, when `w` has a single expansion and no
   * synonyms, two unique terms, so the `len(unique_terms) > len(words)` test
   * fails and the query comes back unexpanded.
   */
  lemma RepeatedWordSuppressesExpansion(t: Tables, w: string, e: string)
    requires w != [] && forall i :: 0 <= i < |w| ==> IsWordChar(w[i]) && !('A' <= w[i] <= 'Z')
    requires e != [] && !IsSpace(e[|e| - 1])
    requires w in t.abbreviations && t.abbreviations[w] == [e] && e != w
    requires w !in t.synonyms
    ensures PreprocessSpec(t, w) == w + " " + e
    ensures PreprocessSpec(t, w + " " + w) == w + " " + w
  {
    PlainWord(w);
    PlainWordTwice(w);
    SingleExpansionTerms(t, w, e);
    var r := w + " " + e;
    assert r[0] == w[0] && r[|r| - 1] == e[|e| - 1];
    StripStable(r);
  }

  /** A table key holding a non-word character, such as the synonym key "data structure", is never looked up. */
  lemma KeyWithSpaceNeverMatches(key: string, word: string, i: nat)
    requires i < |key| && !IsWordChar(key[i])
    ensures CleanWord(word) != key
  {
  }

  predicate Distinct(s: seq<string>) {
    forall i, j :: 0 <= i < j < |s| ==> s[i] != s[j]
  }

  /** De-duplicating terms that are already distinct changes nothing. */
  lemma {:induction false} DedupOfDistinct(s: seq<string>)
    requires Distinct(s)
    ensures Dedup(s) == s
  {
    if s != [] {
      var n := |s| - 1;
      DedupOfDistinct(s[..n]);
      assert s[n] !in s[..n];
      assert s[..n] + [s[n]] == s;
    }
  }

  /** Terms none of which is a query word are all new. */
  lemma {:induction false} NovelAll(s: seq<string>, words: seq<string>)
    requires forall x | x in s :: x !in words
    ensures Novel(s, words) == s
  {
    if s != [] {
      NovelAll(s[1..], words);
      assert s == [s[0]] + s[1..];
    }
  }

  /** A joined string ends with the last part joined. */
  lemma {:induction false} JoinEndsWith(sep: string, parts: seq<string>)
    requires parts != []
    ensures var j, l := Join(sep, parts), parts[|parts| - 1]; |l| <= |j| && j[|j| - |l|..] == l
  {
    if |parts| > 1 {
      JoinEndsWith(sep, parts[1..]);
      var j, rest := Join(sep, parts), Join(sep, parts[1..]);
      assert j == parts[0] + sep + rest;
      assert j[|j| - |rest|..] == rest;
    }
  }

  /** Only the word itself is dropped from the word followed by other terms. */
  lemma NovelAfterWord(w: string, es: seq<string>)
    requires w !in es
    ensures Novel([w] + es, [w]) == es
  {
    assert ([w] + es)[1..] == es;
    NovelAll(es, [w]);
  }

  lemma DistinctCons(w: string, es: seq<string>)
    requires Distinct(es) && w !in es
    ensures Distinct([w] + es)
  {
    var all := [w] + es;
    forall i, j | 0 <= i < j < |all| ensures all[i] != all[j] {
      assert all[j] == es[j - 1];
      if i > 0 {
        assert all[i] == es[i - 1];
      }
    }
  }

  /** The unique and the new terms of a plain word with distinct expansions and no synonyms. */
  lemma ExpansionTerms(t: Tables, w: string, es: seq<string>)
    requires CleanWord(w) == w && w in t.abbreviations && t.abbreviations[w] == es && w !in t.synonyms
    requires Distinct(es) && w !in es
    ensures Dedup(ExpandedTerms(t, [w]) + SynonymTerms(t, [w])) == [w] + es
    ensures Novel([w] + es, [w]) == es
  {
    assert [w][..0] == [];
    var all := ExpandedTerms(t, [w]) + SynonymTerms(t, [w]);
    assert all == [w] + es by {
      assert ExpandedTerms(t, [w]) == [w] + es;
      assert SynonymTerms(t, [w]) == [];
    }
    DistinctCons(w, es);
    DedupOfDistinct(all);
    NovelAfterWord(w, es);
  }

  /** The query words, unique terms and new terms of a plain word with distinct expansions and no synonyms. */
  lemma PlainWordTerms(t: Tables, w: string, es: seq<string>)
    requires w != [] && forall i :: 0 <= i < |w| ==> IsWordChar(w[i]) && !('A' <= w[i] <= 'Z')
    requires w in t.abbreviations && t.abbreviations[w] == es && w !in t.synonyms
    requires Distinct(es) && w !in es
    ensures !IsBlank(w) && Strip(w) == w && QueryWords(w) == [w]
    ensures UniqueTerms(t, w) == [w] + es && Novel([w] + es, [w]) == es
  {
    PlainWord(w);
    ExpansionTerms(t, w, es);
  }

  /** What `preprocess` returns for a query that is its own strip and one word, in terms of its unique terms. */
  lemma PreprocessOneWord(t: Tables, w: string, es: seq<string>)
    requires !IsBlank(w) && Strip(w) == w && QueryWords(w) == [w]
    requires UniqueTerms(t, w) == [w] + es && Novel([w] + es, [w]) == es && es != []
    ensures PreprocessSpec(t, w) == Strip(w + " " + Join(" ", es))
  {
  }

  /** A plain word with distinct expansions and no synonyms is followed by its expansions before the final strip. */
  lemma PlainWordReconstruct(t: Tables, w: string, es: seq<string>)
    requires w != [] && forall i :: 0 <= i < |w| ==> IsWordChar(w[i]) && !('A' <= w[i] <= 'Z')
    requires w in t.abbreviations && t.abbreviations[w] == es && w !in t.synonyms
    requires es != [] && Distinct(es) && w !in es
    ensures PreprocessSpec(t, w) == Strip(w + " " + Join(" ", es))
  {
    PlainWordTerms(t, w, es);
    PreprocessOneWord(t, w, es);
  }

  /** A word, a space and joined parts whose last part ends in a non-space are their own strip. */
  lemma StripWordAndJoin(w: string, es: seq<string>)
    requires w != [] && !IsSpace(w[0])
    requires es != [] && var l := es[|es| - 1]; l != [] && !IsSpace(l[|l| - 1])
    ensures Strip(w + " " + Join(" ", es)) == w + " " + Join(" ", es)
  {
    var j := Join(" ", es);
    var r := w + " " + j;
    JoinEndsWith(" ", es);
    var l := es[|es| - 1];
    assert r[|r| - 1] == j[|j| - 1] == l[|l| - 1];
    assert r[0] == w[0];
    StripStable(r);
  }

  /**
   * A plain word with distinct expansions, none of them the word itself, and
   * no synonyms is returned followed by all its expansions in table order.
   */
  lemma PlainWordExpansion(t: Tables, w: string, es: seq<string>)
    requires w != [] && forall i :: 0 <= i < |w| ==> IsWordChar(w[i]) && !('A' <= w[i] <= 'Z')
    requires w in t.abbreviations && t.abbreviations[w] == es && w !in t.synonyms
    requires es != [] && Distinct(es) && w !in es
    requires var l := es[|es| - 1]; l != [] && !IsSpace(l[|l| - 1])
    ensures PreprocessSpec(t, w) == w + " " + Join(" ", es)
  {
    PlainWordReconstruct(t, w, es);
    assert !IsSpace(w[0]) by {
      assert IsWordChar(w[0]);
    }
    StripWordAndJoin(w, es);
  }

  lemma JoinTwo(sep: string, a: string, b: string)
    ensures Join(sep, [a, b]) == a + sep + b
  {
    assert [a, b][1..] == [b];
  }

  /** The built-in tables list "oop" with two distinct spellings and give it no synonyms. */
  lemma OopEntry()
    ensures "oop" in Builtin.abbreviations && "oop" !in Builtin.synonyms
    ensures Builtin.abbreviations["oop"] == ["object-oriented programming", "object oriented programming"]
  {
  }

  /** The built-in tables expand "oop" to its two spellings. */
  lemma OopExample()
    ensures PreprocessSpec(Builtin, "oop") == "oop" + " " + ("object-oriented programming" + " " + "object oriented programming")
  {
    var es := ["object-oriented programming", "object oriented programming"];
    OopEntry();
    assert es[0] != es[1];
    PlainWordExpansion(Builtin, "oop", es);
    JoinTwo(" ", es[0], es[1]);
  }
}
