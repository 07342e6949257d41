/** How the camera wrapper turns a property identifier into the integer the vendor library
    expects (`LucamCamera._property_value`): an enum member or a raw integer is used as it is,
    a name is rewritten into a `LUCAM_PROP_*` symbol and looked up on the library. Only ASCII
    text is modelled: upper-casing maps `a`-`z` and leaves every other character alone. */
module PropertyNames {
  import opened Results
  import opened ErrorCodes

  const Prefix: string := "LUCAM_PROP_"

  /** A character the pattern `[A-Z]` matches. */
  predicate IsCapital(c: char) {
    'A' <= c <= 'Z'
  }

  /** A character `str.split()` splits on: the ASCII characters `str.isspace()` accepts
      (tab, line feed, vertical tab, form feed, carriage return, the four separators
      0x1C to 0x1F, and space). */
  predicate IsSpace(c: char) {
    c == ' ' || 9 <= c as int <= 13 || 28 <= c as int <= 31
  }

  predicate NoSpace(s: string) {
    forall c :: c in s ==> !IsSpace(c)
  }

  function ToUpper(c: char): (u: char)
    ensures 'a' <= c <= 'z' ==> u as int == c as int - 32
    ensures !('a' <= c <= 'z') ==> u == c
  {
    if 'a' <= c <= 'z' then (c as int - 32) as char else c
  }

  /** `str.upper()` on ASCII text. */
  function Upper(s: string): (u: string)
    ensures |u| == |s|
    ensures forall i :: 0 <= i < |s| ==> u[i] == ToUpper(s[i])
  {
    if s == [] then [] else [ToUpper(s[0])] + Upper(s[1..])
  }

  /** Upper-casing works character by character, so it distributes over concatenation. */
  lemma UpperAppend(a: string, b: string)
    ensures Upper(a + b) == Upper(a) + Upper(b)
  {
  }

  /** `re.sub(r"([A-Z])", r" \1", s)`: a space before every capital letter. */
  function SpaceBeforeCapitals(s: string): (t: string)
    ensures |t| >= |s|
  {
    if s == [] then []
    else (if IsCapital(s[0]) then [' ', s[0]] else [s[0]]) + SpaceBeforeCapitals(s[1..])
  }

  /** The longest prefix of `s` without whitespace. */
  function Word(s: string): (w: string)
    ensures |w| <= |s|
  {
    if s == [] || IsSpace(s[0]) then [] else [s[0]] + Word(s[1..])
  }

  /** `str.split()` without arguments: the maximal runs of non-whitespace, in order. */
  function Split(s: string): seq<string>
    decreases |s|
  {
    if s == [] then []
    else if IsSpace(s[0]) then Split(s[1..])
    else
      var w := Word(s);
      [w] + Split(s[|w|..])
  }

  /** `sep.join(words)`. */
  function Join(words: seq<string>, sep: char): string {
    if words == [] then []
    else if |words| == 1 then words[0]
    else words[0] + [sep] + Join(words[1..], sep)
  }

  /** The rewrite `_property_value` applies to a name before upper-casing it: a name without
      an underscore is split before its capitals and rejoined with underscores. */
  function Normalise(name: string): string {
    if '_' !in name then Join(Split(SpaceBeforeCapitals(name)), '_') else name
  }

  /** The library symbol a property name is looked up under. */
  function SymbolName(name: string): string {
    Prefix + Upper(Normalise(name))
  }

  // ---------------------------------------------------------------------------------------
  // A reference reading of the rewrite on camel-case names, independent of split and join.

  /** `s` with an underscore inserted before every capital letter. */
  function UnderscoreCapitals(s: string): string {
    if s == [] then []
    else (if IsCapital(s[0]) then ['_', s[0]] else [s[0]]) + UnderscoreCapitals(s[1..])
  }

  /** A camel-case word in snake case: the first character kept, an underscore before every
      later capital letter. */
  function CamelToSnake(s: string): string {
    if s == [] then [] else [s[0]] + UnderscoreCapitals(s[1..])
  }

  /** In `UnderscoreCapitals(s)` every capital is preceded by an underscore, every inserted
      underscore is followed by a capital, and dropping the underscores gives back `s`. */
  lemma {:induction false} UnderscoreCapitalsShape(s: string)
    ensures var u := UnderscoreCapitals(s);
      && ('_' !in s ==> forall i :: 0 <= i < |u| && u[i] == '_' ==> i + 1 < |u| && IsCapital(u[i + 1]))
      && (forall i :: 0 <= i < |u| && IsCapital(u[i]) ==> 0 < i && u[i - 1] == '_')
      && WithoutUnderscores(u) == WithoutUnderscores(s)
  {
    if s != [] {
      var head := if IsCapital(s[0]) then ['_', s[0]] else [s[0]];
      var rest := UnderscoreCapitals(s[1..]);
      UnderscoreCapitalsShape(s[1..]);
      WithoutUnderscoresAppend(head, rest);
      WithoutUnderscoresAppend([s[0]], s[1..]);
      assert s == [s[0]] + s[1..];
      assert UnderscoreCapitals(s) == head + rest;
    }
  }

  /** The snake-case reading of a name without underscores puts an underscore before every
      capital letter except a leading one and nowhere else: every underscore stands after the
      first character and before a capital, every capital after the first character follows an
      underscore, and the other characters are those of the name, in order. */
  lemma SnakeCaseShape(s: string)
    requires '_' !in s
    ensures var u := CamelToSnake(s);
      && (|s| > 0 ==> |u| > 0 && u[0] == s[0])
      && (forall i :: 0 <= i < |u| && u[i] == '_' ==> 0 < i && i + 1 < |u| && IsCapital(u[i + 1]))
      && (forall i :: 0 < i < |u| && IsCapital(u[i]) ==> u[i - 1] == '_')
      && WithoutUnderscores(u) == s
  {
    if s != [] {
      var rest := UnderscoreCapitals(s[1..]);
      assert '_' !in s[1..] by {
        forall c | c in s[1..] ensures c != '_' { assert c in s; }
      }
      UnderscoreCapitalsShape(s[1..]);
      WithoutUnderscoresAppend([s[0]], rest);
      WithoutUnderscoresAppend([s[0]], s[1..]);
      assert s == [s[0]] + s[1..];
      NoUnderscoresKept(s);
    }
  }

  /** A name without underscores loses nothing when they are dropped. */
  lemma {:induction false} NoUnderscoresKept(s: string)
    requires '_' !in s
    ensures WithoutUnderscores(s) == s
  {
    if s != [] {
      assert '_' !in s[1..] by {
        forall c | c in s[1..] ensures c != '_' { assert c in s; }
      }
      NoUnderscoresKept(s[1..]);
      assert s == [s[0]] + s[1..];
    }
  }

  function WithoutUnderscores(s: string): string {
    if s == [] then [] else (if s[0] == '_' then [] else [s[0]]) + WithoutUnderscores(s[1..])
  }

  lemma {:induction false} WithoutUnderscoresAppend(a: string, b: string)
    ensures WithoutUnderscores(a + b) == WithoutUnderscores(a) + WithoutUnderscores(b)
    decreases |a|
  {
    if a != [] {
      assert (a + b)[0] == a[0];
      assert (a + b)[1..] == a[1..] + b;
      WithoutUnderscoresAppend(a[1..], b);
    } else {
      assert a + b == b;
    }
  }

  // ---------------------------------------------------------------------------------------
  // The split/join rewrite agrees with the reference reading.

  lemma {:induction false} WordOfSpaceFree(x: string, y: string)
    requires NoSpace(x)
    requires y == [] || IsSpace(y[0])
    ensures Word(x + y) == x
    decreases |x|
  {
    if x != [] {
      assert (x + y)[1..] == x[1..] + y;
      WordOfSpaceFree(x[1..], y);
    } else {
      assert x + y == y;
    }
  }

  /** Splitting text that starts with a whole word yields that word first. */
  lemma SplitLeadingWord(x: string, y: string)
    requires x != [] && NoSpace(x)
    requires y == [] || IsSpace(y[0])
    ensures Split(x + y) == [x] + Split(y)
  {
    WordOfSpaceFree(x, y);
    assert (x + y)[|x|..] == y;
  }

  lemma JoinCons(x: string, words: seq<string>, sep: char)
    requires words != []
    ensures Join([x] + words, sep) == x + [sep] + Join(words, sep)
  {
    assert ([x] + words)[1..] == words;
  }

  /** Leading whitespace does not change the words. */
  lemma SplitLeadingSpace(c: char, y: string)
    requires IsSpace(c)
    ensures Split([c] + y) == Split(y)
  {
    assert ([c] + y)[1..] == y;
  }

  /** Text that starts with a non-space character has at least one word. */
  lemma SplitNonEmpty(c: char, y: string)
    requires !IsSpace(c)
    ensures Split([c] + y) != []
  {
  }

  /** One step of both insertions, written with the inserted character split off. */
  lemma UnfoldCapitals(s: string)
    requires s != []
    ensures IsCapital(s[0]) ==> SpaceBeforeCapitals(s) == [' '] + ([s[0]] + SpaceBeforeCapitals(s[1..]))
    ensures IsCapital(s[0]) ==> UnderscoreCapitals(s) == ['_'] + ([s[0]] + UnderscoreCapitals(s[1..]))
    ensures !IsCapital(s[0]) ==> SpaceBeforeCapitals(s) == [s[0]] + SpaceBeforeCapitals(s[1..])
    ensures !IsCapital(s[0]) ==> UnderscoreCapitals(s) == [s[0]] + UnderscoreCapitals(s[1..])
  {
  }

  /** A space before a capital closes the word in front of it and becomes an underscore. */
  lemma RewriteBeforeCapital(x: string, c: char, rest: string, u: string)
    requires x != [] && NoSpace(x) && !IsSpace(c)
    requires Join(Split([c] + rest), '_') == [c] + u
    ensures Join(Split(x + ([' '] + ([c] + rest))), '_') == x + (['_'] + ([c] + u))
  {
    var tail := [c] + rest;
    SplitLeadingWord(x, [' '] + tail);
    SplitLeadingSpace(' ', tail);
    SplitNonEmpty(c, rest);
    JoinCons(x, Split(tail), '_');
  }

  /** After a word `x`, the rewrite of the rest of a camel-case name puts an underscore before
      each of its capitals. */
  lemma {:induction false} RewriteAfterWord(x: string, s: string)
    requires x != [] && NoSpace(x) && NoSpace(s)
    ensures Join(Split(x + SpaceBeforeCapitals(s)), '_') == x + UnderscoreCapitals(s)
    decreases |s|
  {
    if s == [] {
      SplitLeadingWord(x, []);
      assert x + SpaceBeforeCapitals(s) == x + [];
    } else {
      var c := s[0];
      var rest := SpaceBeforeCapitals(s[1..]);
      UnfoldCapitals(s);
      if IsCapital(c) {
        RewriteAfterWord([c], s[1..]);
        RewriteBeforeCapital(x, c, rest, UnderscoreCapitals(s[1..]));
      } else {
        assert x + SpaceBeforeCapitals(s) == (x + [c]) + rest;
        RewriteAfterWord(x + [c], s[1..]);
      }
    }
  }

  /** On a name without whitespace, splitting before capitals and rejoining with underscores is
      exactly the snake-case reading. */
  lemma {:induction false} SplitJoinIsSnakeCase(s: string)
    requires NoSpace(s)
    ensures Join(Split(SpaceBeforeCapitals(s)), '_') == CamelToSnake(s)
  {
    if s != [] {
      var c := s[0];
      var rest := SpaceBeforeCapitals(s[1..]);
      RewriteAfterWord([c], s[1..]);
      if IsCapital(c) {
        assert SpaceBeforeCapitals(s) == [' '] + ([c] + rest);
        assert ([' '] + ([c] + rest))[1..] == [c] + rest;
      } else {
        assert SpaceBeforeCapitals(s) == [c] + rest;
      }
    }
  }

  /** A name with neither an underscore nor whitespace becomes the prefix followed by its
      upper-cased snake-case reading. */
  lemma CamelCaseSymbol(name: string)
    requires '_' !in name && NoSpace(name)
    ensures SymbolName(name) == Prefix + Upper(CamelToSnake(name))
  {
    SplitJoinIsSnakeCase(name);
  }

  // ---------------------------------------------------------------------------------------
  // Names with whitespace: each whitespace-separated word is read in snake case on its own.

  /** Each word in its snake-case reading. */
  function SnakeWords(words: seq<string>): (r: seq<string>)
    ensures |r| == |words|
  {
    if words == [] then [] else [CamelToSnake(words[0])] + SnakeWords(words[1..])
  }

  /** The first word of `s` is a space-free prefix of it, ended by whitespace or by the end. */
  lemma {:induction false} WordPrefix(s: string)
    ensures var w := Word(s);
      && NoSpace(w) && s == w + s[|w|..]
      && (s != [] && !IsSpace(s[0]) ==> w != [])
      && (|w| == |s| || IsSpace(s[|w|]))
    decreases |s|
  {
    if s != [] && !IsSpace(s[0]) {
      WordPrefix(s[1..]);
      var w := Word(s[1..]);
      assert Word(s) == [s[0]] + w;
      assert s[|Word(s)|..] == s[1..][|w|..];
      assert s == [s[0]] + s[1..];
      assert NoSpace(Word(s)) by {
        forall c | c in Word(s) ensures !IsSpace(c) {
          if c != s[0] { assert c in w; }
        }
      }
    }
  }

  /** Text ended by whitespace or by the end keeps its first word when more text follows. */
  lemma {:induction false} WordAppend(x: string, y: string)
    requires y == [] || IsSpace(y[0])
    ensures Word(x + y) == Word(x)
    decreases |x|
  {
    if x == [] {
      assert x + y == y;
    } else if !IsSpace(x[0]) {
      assert (x + y)[1..] == x[1..] + y;
      WordAppend(x[1..], y);
    }
  }

  /** Splitting text followed by whitespace, or by nothing, splits the two parts apart. */
  lemma {:induction false} SplitAppend(x: string, y: string)
    requires y == [] || IsSpace(y[0])
    ensures Split(x + y) == Split(x) + Split(y)
    decreases |x|
  {
    if x == [] {
      assert x + y == y;
    } else if IsSpace(x[0]) {
      assert (x + y)[1..] == x[1..] + y;
      SplitAppend(x[1..], y);
    } else {
      var w := Word(x);
      WordAppend(x, y);
      WordPrefix(x);
      var rest := x[|w|..];
      assert (x + y)[|w|..] == rest + y;
      assert Split(x) == [w] + Split(rest);
      assert Split(x + y) == [w] + Split(rest + y);
      SplitAppend(rest, y);
    }
  }

  /** Joining two non-empty lists of words puts one separator between their joins. */
  lemma {:induction false} JoinAppend(a: seq<string>, b: seq<string>, sep: char)
    requires a != [] && b != []
    ensures Join(a + b, sep) == Join(a, sep) + [sep] + Join(b, sep)
    decreases |a|
  {
    assert a + b == [a[0]] + (a[1..] + b);
    JoinCons(a[0], a[1..] + b, sep);
    if |a| > 1 {
      JoinAppend(a[1..], b, sep);
      JoinCons(a[0], a[1..], sep);
    }
  }

  lemma {:induction false} SpaceBeforeCapitalsAppend(a: string, b: string)
    ensures SpaceBeforeCapitals(a + b) == SpaceBeforeCapitals(a) + SpaceBeforeCapitals(b)
    decreases |a|
  {
    if a == [] {
      assert a + b == b;
    } else {
      assert (a + b)[0] == a[0];
      assert (a + b)[1..] == a[1..] + b;
      SpaceBeforeCapitalsAppend(a[1..], b);
    }
  }

  /** A word that starts with a non-space character still has a word after the rewrite. */
  lemma RewrittenWordNonEmpty(w: string)
    requires w != [] && !IsSpace(w[0])
    ensures Split(SpaceBeforeCapitals(w)) != []
  {
    UnfoldCapitals(w);
    var tail := [w[0]] + SpaceBeforeCapitals(w[1..]);
    SplitNonEmpty(w[0], SpaceBeforeCapitals(w[1..]));
    if IsCapital(w[0]) {
      SplitLeadingSpace(' ', tail);
    }
  }

  /** On any text, splitting before capitals and rejoining with underscores gives the
      snake-case readings of its whitespace-separated words, joined with underscores; the
      rewrite has words exactly when the text has. */
  lemma {:induction false} SplitJoinIsSnakeWords(s: string)
    ensures Split(SpaceBeforeCapitals(s)) == [] <==> Split(s) == []
    ensures Join(Split(SpaceBeforeCapitals(s)), '_') == Join(SnakeWords(Split(s)), '_')
    decreases |s|
  {
    if s == [] {
    } else if IsSpace(s[0]) {
      UnfoldCapitals(s);
      assert s == [s[0]] + s[1..];
      SplitLeadingSpace(s[0], SpaceBeforeCapitals(s[1..]));
      SplitLeadingSpace(s[0], s[1..]);
      SplitJoinIsSnakeWords(s[1..]);
    } else {
      WordPrefix(s);
      var w := Word(s);
      var rest := s[|w|..];
      SplitLeadingWord(w, rest);
      SpaceBeforeCapitalsAppend(w, rest);
      var sw := SpaceBeforeCapitals(w);
      var sr := SpaceBeforeCapitals(rest);
      if rest != [] {
        UnfoldCapitals(rest);
      }
      SplitAppend(sw, sr);
      SplitJoinIsSnakeCase(w);
      RewrittenWordNonEmpty(w);
      SplitJoinIsSnakeWords(rest);
      assert SnakeWords([w] + Split(rest)) == [CamelToSnake(w)] + SnakeWords(Split(rest));
      if Split(rest) == [] {
        assert Split(sw) + Split(sr) == Split(sw);
      } else {
        JoinAppend(Split(sw), Split(sr), '_');
        JoinCons(CamelToSnake(w), SnakeWords(Split(rest)), '_');
      }
    }
  }

  /** Any name without an underscore becomes the prefix followed by the upper-cased snake-case
      readings of its whitespace-separated words, joined with underscores. */
  lemma SpacedNameSymbol(name: string)
    requires '_' !in name
    ensures SymbolName(name) == Prefix + Upper(Join(SnakeWords(Split(name)), '_'))
  {
    SplitJoinIsSnakeWords(name);
  }

  /** Two words separated by one space are read as two words joined by an underscore, so
      `gain red` and `gainRed` name the same symbol. */
  lemma SpaceSeparatedWords(a: string, b: string)
    requires a != [] && b != [] && NoSpace(a) && NoSpace(b) && '_' !in a && '_' !in b
    ensures SymbolName(a + [' '] + b) == Prefix + Upper(CamelToSnake(a) + ['_'] + CamelToSnake(b))
  {
    var s := a + [' '] + b;
    assert '_' !in s;
    assert s == a + ([' '] + b);
    SplitLeadingWord(a, [' '] + b);
    SplitLeadingSpace(' ', b);
    SplitLeadingWord(b, []);
    assert b + [] == b;
    SpacedNameSymbol(s);
    assert Split(s) == [a, b];
    assert SnakeWords([a, b]) == [CamelToSnake(a), CamelToSnake(b)];
  }

  /** A name that already contains an underscore is only upper-cased, never split. */
  lemma UnderscoredSymbol(name: string)
    requires '_' in name
    ensures SymbolName(name) == Prefix + Upper(name)
  {
  }

  // Worked cases. Each is assembled from small facts about one literal name (its snake-case
  // reading, the upper-casing of that reading, and the absence of underscores and
  // whitespace), so that no single proof has to evaluate the whole rewrite on a literal.

  /** No capital letter anywhere in `s`. */
  predicate NoCapital(s: string) {
    forall c :: c in s ==> !IsCapital(c)
  }

  lemma {:induction false} UnderscoreCapitalsAppend(a: string, b: string)
    ensures UnderscoreCapitals(a + b) == UnderscoreCapitals(a) + UnderscoreCapitals(b)
  {
    if a == [] {
      assert a + b == b;
    } else {
      var head := if IsCapital(a[0]) then ['_', a[0]] else [a[0]];
      assert (a + b)[0] == a[0];
      assert (a + b)[1..] == a[1..] + b;
      UnderscoreCapitalsAppend(a[1..], b);
      calc {
        UnderscoreCapitals(a + b);
        head + UnderscoreCapitals(a[1..] + b);
        head + (UnderscoreCapitals(a[1..]) + UnderscoreCapitals(b));
        (head + UnderscoreCapitals(a[1..])) + UnderscoreCapitals(b);
      }
    }
  }

  lemma {:induction false} UnderscoreCapitalsNoCapital(s: string)
    requires NoCapital(s)
    ensures UnderscoreCapitals(s) == s
  {
    if s != [] {
      assert NoCapital(s[1..]) by {
        forall c | c in s[1..] ensures !IsCapital(c) { assert c in s; }
      }
      UnderscoreCapitalsNoCapital(s[1..]);
      assert s == [s[0]] + s[1..];
    }
  }

  /** A word with no capital after its first character has no underscore inserted. */
  lemma OneWordSnakeCase(w: string)
    requires w != [] && NoCapital(w[1..])
    ensures CamelToSnake(w) == w
  {
    UnderscoreCapitalsNoCapital(w[1..]);
    assert w == [w[0]] + w[1..];
  }

  /** Two words, the second starting with a capital, are joined by one underscore. */
  lemma TwoWordSnakeCase(a: string, c: char, b: string)
    requires a != [] && NoCapital(a[1..]) && IsCapital(c) && NoCapital(b)
    ensures CamelToSnake(a + [c] + b) == a + ['_', c] + b
  {
    var s := a + [c] + b;
    var cb := [c] + b;
    assert s[0] == a[0];
    assert s[1..] == a[1..] + cb;
    UnderscoreCapitalsAppend(a[1..], cb);
    UnderscoreCapitalsNoCapital(a[1..]);
    UnderscoreCapitalsNoCapital(b);
    assert cb[0] == c && cb[1..] == b;
    assert UnderscoreCapitals(cb) == ['_', c] + b;
    calc {
      CamelToSnake(s);
      [a[0]] + UnderscoreCapitals(a[1..] + cb);
      [a[0]] + (a[1..] + (['_', c] + b));
      { assert a == [a[0]] + a[1..]; }
      a + ['_', c] + b;
    }
  }

  // ---------------------------------------------------------------------------------------
  // Worked examples: the names the wrapper itself looks up. Each `...Symbol` lemma reads
  // the symbol off three facts about one literal name (its spelling, its snake-case form and
  // its upper-cased form), each a lemma of its own so that the solver unfolds one literal
  // computation at a time.

  /** The symbol of a camel-case name, read off its snake-case form. */
  lemma SymbolViaSnakeCase(name: string, snake: string, upper: string)
    requires '_' !in name && NoSpace(name)
    requires CamelToSnake(name) == snake && Upper(snake) == upper
    ensures SymbolName(name) == Prefix + upper
  {
    CamelCaseSymbol(name);
  }

  /** Worked case: `gain`, one word, is only upper-cased. */
  lemma GainSymbol()
    ensures SymbolName("gain") == Prefix + "GAIN"
  {
    GainSpelling();
    GainUpper();
    GainSnakeCase();
    SymbolViaSnakeCase("gain", "gain", "GAIN");
  }

  lemma GainSpelling()
    ensures '_' !in "gain" && NoSpace("gain")
  {
  }

  lemma GainUpper()
    ensures Upper("gain") == "GAIN"
  {
  }

  lemma GainSnakeCase()
    ensures CamelToSnake("gain") == "gain"
  {
    OneWordSnakeCase("gain");
  }

  /** Worked case: `exposure`, one word, is only upper-cased. */
  lemma ExposureSymbol()
    ensures SymbolName("exposure") == Prefix + "EXPOSURE"
  {
    ExposureSpelling();
    ExposureUpper();
    ExposureSnakeCase();
    SymbolViaSnakeCase("exposure", "exposure", "EXPOSURE");
  }

  lemma ExposureSpelling()
    ensures '_' !in "exposure" && NoSpace("exposure")
  {
  }

  lemma ExposureUpper()
    ensures Upper("exposure") == "EXPOSURE"
  {
  }

  lemma ExposureSnakeCase()
    ensures CamelToSnake("exposure") == "exposure"
  {
    OneWordSnakeCase("exposure");
  }

  /** Worked case: `gainRed` reaches the red-gain symbol. */
  lemma GainRedSymbol()
    ensures SymbolName("gainRed") == Prefix + "GAIN_RED"
  {
    GainRedSpelling();
    GainRedUpper();
    GainRedSnakeCase();
    SymbolViaSnakeCase("gainRed", "gain_Red", "GAIN_RED");
  }

  lemma GainRedSpelling()
    ensures '_' !in "gainRed" && NoSpace("gainRed")
  {
  }

  lemma GainRedUpper()
    ensures Upper("gain_Red") == "GAIN_RED"
  {
  }

  lemma GainRedSnakeCase()
    ensures CamelToSnake("gainRed") == "gain_Red"
  {
    TwoWordSnakeCase("gain", 'R', "ed");
    assert "gain" + ['R'] + "ed" == "gainRed";
    assert "gain" + ['_', 'R'] + "ed" == "gain_Red";
  }

  /** Worked case: a leading capital gets no underscore, so `GainRed` reaches the same symbol. */
  lemma CapitalisedGainRedSymbol()
    ensures SymbolName("GainRed") == Prefix + "GAIN_RED"
  {
    CapitalisedGainRedSpelling();
    CapitalisedGainRedUpper();
    CapitalisedGainRedSnakeCase();
    SymbolViaSnakeCase("GainRed", "Gain_Red", "GAIN_RED");
  }

  lemma CapitalisedGainRedSpelling()
    ensures '_' !in "GainRed" && NoSpace("GainRed")
  {
  }

  lemma CapitalisedGainRedUpper()
    ensures Upper("Gain_Red") == "GAIN_RED"
  {
  }

  lemma CapitalisedGainRedSnakeCase()
    ensures CamelToSnake("GainRed") == "Gain_Red"
  {
    TwoWordSnakeCase("Gain", 'R', "ed");
    assert "Gain" + ['R'] + "ed" == "GainRed";
    assert "Gain" + ['_', 'R'] + "ed" == "Gain_Red";
  }

  /** Worked case: `gainBlue` reaches the blue-gain symbol. */
  lemma GainBlueSymbol()
    ensures SymbolName("gainBlue") == Prefix + "GAIN_BLUE"
  {
    GainBlueSpelling();
    GainBlueUpper();
    GainBlueSnakeCase();
    SymbolViaSnakeCase("gainBlue", "gain_Blue", "GAIN_BLUE");
  }

  lemma GainBlueSpelling()
    ensures '_' !in "gainBlue" && NoSpace("gainBlue")
  {
  }

  lemma GainBlueUpper()
    ensures Upper("gain_Blue") == "GAIN_BLUE"
  {
  }

  lemma GainBlueSnakeCase()
    ensures CamelToSnake("gainBlue") == "gain_Blue"
  {
    TwoWordSnakeCase("gain", 'B', "lue");
    assert "gain" + ['B'] + "lue" == "gainBlue";
    assert "gain" + ['_', 'B'] + "lue" == "gain_Blue";
  }

  /** Worked case: `gainGreen1` reaches the first green-gain symbol; a digit is not a capital. */
  lemma GainGreen1Symbol()
    ensures SymbolName("gainGreen1") == Prefix + "GAIN_GREEN1"
  {
    GainGreen1Spelling();
    GainGreen1Upper();
    GainGreen1SnakeCase();
    SymbolViaSnakeCase("gainGreen1", "gain_Green1", "GAIN_GREEN1");
  }

  lemma GainGreen1Spelling()
    ensures '_' !in "gainGreen1" && NoSpace("gainGreen1")
  {
  }

  lemma UnderscoredGainUpper()
    ensures Upper("gain_") == "GAIN_"
  {
  }

  lemma GainGreen1Upper()
    ensures Upper("gain_Green1") == "GAIN_GREEN1"
  {
    UpperAppend("gain_", "Green1");
    assert "gain_" + "Green1" == "gain_Green1";
    UnderscoredGainUpper();
    Green1Upper();
    assert "GAIN_" + "GREEN1" == "GAIN_GREEN1";
  }

  lemma Green1Upper()
    ensures Upper("Green1") == "GREEN1"
  {
  }

  lemma GainGreen1SnakeCase()
    ensures CamelToSnake("gainGreen1") == "gain_Green1"
  {
    TwoWordSnakeCase("gain", 'G', "reen1");
    assert "gain" + ['G'] + "reen1" == "gainGreen1";
    assert "gain" + ['_', 'G'] + "reen1" == "gain_Green1";
  }

  /** Worked case: `gainGreen2` reaches the second green-gain symbol. */
  lemma GainGreen2Symbol()
    ensures SymbolName("gainGreen2") == Prefix + "GAIN_GREEN2"
  {
    GainGreen2Spelling();
    GainGreen2Upper();
    GainGreen2SnakeCase();
    SymbolViaSnakeCase("gainGreen2", "gain_Green2", "GAIN_GREEN2");
  }

  lemma GainGreen2Spelling()
    ensures '_' !in "gainGreen2" && NoSpace("gainGreen2")
  {
  }

  lemma GainGreen2Upper()
    ensures Upper("gain_Green2") == "GAIN_GREEN2"
  {
    UpperAppend("gain_", "Green2");
    assert "gain_" + "Green2" == "gain_Green2";
    UnderscoredGainUpper();
    Green2Upper();
    assert "GAIN_" + "GREEN2" == "GAIN_GREEN2";
  }

  lemma Green2Upper()
    ensures Upper("Green2") == "GREEN2"
  {
  }

  lemma GainGreen2SnakeCase()
    ensures CamelToSnake("gainGreen2") == "gain_Green2"
  {
    TwoWordSnakeCase("gain", 'G', "reen2");
    assert "gain" + ['G'] + "reen2" == "gainGreen2";
    assert "gain" + ['_', 'G'] + "reen2" == "gain_Green2";
  }

  /** Worked case: an all-capital word is split letter by letter, so the rewrite applied to its own upper-cased output does not give that output back. */
  lemma CapitalWordSymbol()
    ensures SymbolName("GAIN") == Prefix + "G_A_I_N"
  {
    CapitalWordSpelling();
    CapitalWordUpper();
    CapitalWordSnakeCase();
    SymbolViaSnakeCase("GAIN", "G_A_I_N", "G_A_I_N");
  }

  lemma CapitalWordSpelling()
    ensures '_' !in "GAIN" && NoSpace("GAIN")
  {
  }

  lemma CapitalWordUpper()
    ensures Upper("G_A_I_N") == "G_A_I_N"
  {
  }

  lemma CapitalWordSnakeCase()
    ensures CamelToSnake("GAIN") == "G_A_I_N"
  {
    assert UnderscoreCapitals("N") == "_N";
    assert UnderscoreCapitals("IN") == "_I_N";
    assert UnderscoreCapitals("AIN") == "_A_I_N";
  }

  /** Worked case: a name with an underscore is only upper-cased. */
  lemma UnderscoredGainRedSymbol()
    ensures SymbolName("gain_red") == Prefix + "GAIN_RED"
  {
    UnderscoredSymbol("gain_red");
  }

  /** The worked cases together: three spellings of the red gain reach one symbol, and the
      upper-cased word `GAIN` does not reach the symbol `gain` does. */
  lemma SymbolExamples()
    ensures SymbolName("gainRed") == SymbolName("GainRed") == SymbolName("gain_red") == Prefix + "GAIN_RED"
    ensures SymbolName("gain") == Prefix + "GAIN" != SymbolName("GAIN")
  {
    GainRedSymbol();
    CapitalisedGainRedSymbol();
    UnderscoredGainRedSymbol();
    CapitalWordSymbol();
    GainSymbol();
  }

  // ---------------------------------------------------------------------------------------
  // Identifiers and their resolution.

  /** The members of the `LucamProperty` enumeration. */
  datatype LucamProperty = Gain | GainRed | GainBlue | GainGreen1 | GainGreen2

  /** The library symbol whose value each member carries. */
  function MemberSymbol(p: LucamProperty): string {
    match p
    case Gain => Prefix + "GAIN"
    case GainRed => Prefix + "GAIN_RED"
    case GainBlue => Prefix + "GAIN_BLUE"
    case GainGreen1 => Prefix + "GAIN_GREEN1"
    case GainGreen2 => Prefix + "GAIN_GREEN2"
  }

  /** The library defines every symbol the enumeration is built from; without them the
      wrapper module does not load at all. */
  predicate Bound(symbols: map<string, int>) {
    forall p: LucamProperty :: MemberSymbol(p) in symbols
  }

  /** The three kinds of identifier `get_property` and `set_property` accept. */
  datatype PropertyId = Member(p: LucamProperty) | Number(n: int) | Name(s: string)

  /** `_property_value`: the integer the library receives for an identifier. A name whose
      symbol the library lacks fails as a missing attribute. */
  function Resolve(symbols: map<string, int>, id: PropertyId): Result<int, Error>
    requires Bound(symbols)
  {
    match id
    case Member(p) => Success(symbols[MemberSymbol(p)])
    case Number(n) => Success(n)
    case Name(s) =>
      var symbol := SymbolName(s);
      if symbol in symbols then Success(symbols[symbol]) else Failure(AttributeError(symbol))
  }

  /** What each kind of identifier resolves to. */
  lemma ResolveCases(symbols: map<string, int>, id: PropertyId)
    requires Bound(symbols)
    ensures id.Number? ==> Resolve(symbols, id) == Success(id.n)
    ensures id.Member? ==> Resolve(symbols, id) == Success(symbols[MemberSymbol(id.p)])
    ensures id.Name? && '_' in id.s ==>
      var symbol := Prefix + Upper(id.s);
      Resolve(symbols, id) == if symbol in symbols then Success(symbols[symbol]) else Failure(AttributeError(symbol))
    ensures id.Name? && '_' !in id.s && NoSpace(id.s) ==>
      var symbol := Prefix + Upper(CamelToSnake(id.s));
      Resolve(symbols, id) == if symbol in symbols then Success(symbols[symbol]) else Failure(AttributeError(symbol))
    ensures id.Name? && '_' !in id.s ==>
      var symbol := Prefix + Upper(Join(SnakeWords(Split(id.s)), '_'));
      Resolve(symbols, id) == if symbol in symbols then Success(symbols[symbol]) else Failure(AttributeError(symbol))
  {
    if id.Name? && '_' !in id.s {
      SpacedNameSymbol(id.s);
      if NoSpace(id.s) {
        CamelCaseSymbol(id.s);
      }
    }
  }

  // ---------------------------------------------------------------------------------------
  // The green-channel spelling used by `get_default_snapshot`.

  /** `pat in s` for strings. */
  predicate Contains(s: string, pat: string)
    decreases |s|
  {
    |pat| <= |s| && (s[..|pat|] == pat || (s != [] && Contains(s[1..], pat)))
  }

  /** `s.replace(pat, rep)`: every occurrence of `pat`, scanning left to right without
      overlaps, replaced by `rep`. */
  function ReplaceAll(s: string, pat: string, rep: string): string
    requires pat != []
    decreases |s|
  {
    if |s| < |pat| then s
    else if s[..|pat|] == pat then rep + ReplaceAll(s[|pat|..], pat, rep)
    else [s[0]] + ReplaceAll(s[1..], pat, rep)
  }

  /** Replacing a pattern that does not occur changes nothing. */
  lemma {:induction false} ReplaceAbsent(s: string, pat: string, rep: string)
    requires pat != [] && !Contains(s, pat)
    ensures ReplaceAll(s, pat, rep) == s
    decreases |s|
  {
    if |s| >= |pat| {
      ReplaceAbsent(s[1..], pat, rep);
      assert s == [s[0]] + s[1..];
    }
  }

  /** The name `get_default_snapshot` queries for a snapshot field: the field name with the
      abbreviation `Grn` spelled out as `Green`. */
  function SnapshotQueryName(field: string): string {
    if Contains(field, "Grn") then ReplaceAll(field, "Grn", "Green") else field
  }

  /** Asking whether `Grn` occurs before replacing it makes no difference to the name. */
  lemma QueryNameIsReplacement(field: string)
    ensures SnapshotQueryName(field) == ReplaceAll(field, "Grn", "Green")
  {
    if !Contains(field, "Grn") {
      ReplaceAbsent(field, "Grn", "Green");
    }
  }

  /** The property names the snapshot fields are queried under reach the symbols of the
      enumeration members (and the exposure symbol, which has no member). */
  lemma SnapshotNamesMatchMembers()
    ensures SymbolName(SnapshotQueryName("exposure")) == Prefix + "EXPOSURE"
    ensures SymbolName(SnapshotQueryName("gain")) == MemberSymbol(Gain)
    ensures SymbolName(SnapshotQueryName("gainRed")) == MemberSymbol(GainRed)
    ensures SymbolName(SnapshotQueryName("gainBlue")) == MemberSymbol(GainBlue)
    ensures SymbolName(SnapshotQueryName("gainGrn1")) == MemberSymbol(GainGreen1)
    ensures SymbolName(SnapshotQueryName("gainGrn2")) == MemberSymbol(GainGreen2)
  {
    ExposureQuery();
    GainQuery();
    GainRedQuery();
    GainBlueQuery();
    GainGreen1Query();
    GainGreen2Query();
  }

  lemma ExposureQuery()
    ensures SymbolName(SnapshotQueryName("exposure")) == Prefix + "EXPOSURE"
  {
    QueryNameIsReplacement("exposure");
    assert ReplaceAll("exposure", "Grn", "Green") == "exposure";
    ExposureSymbol();
  }

  lemma GainQuery()
    ensures SymbolName(SnapshotQueryName("gain")) == MemberSymbol(Gain)
  {
    QueryNameIsReplacement("gain");
    assert ReplaceAll("in", "Grn", "Green") == "in";
    assert ReplaceAll("ain", "Grn", "Green") == "ain";
    assert ReplaceAll("gain", "Grn", "Green") == "gain";
    GainSymbol();
  }

  lemma GainRedQuery()
    ensures SymbolName(SnapshotQueryName("gainRed")) == MemberSymbol(GainRed)
  {
    QueryNameIsReplacement("gainRed");
    assert ReplaceAll("gainRed", "Grn", "Green") == "gainRed";
    GainRedSymbol();
  }

  lemma GainBlueQuery()
    ensures SymbolName(SnapshotQueryName("gainBlue")) == MemberSymbol(GainBlue)
  {
    QueryNameIsReplacement("gainBlue");
    assert ReplaceAll("gainBlue", "Grn", "Green") == "gainBlue";
    GainBlueSymbol();
  }

  lemma GainGreen1Query()
    ensures SymbolName(SnapshotQueryName("gainGrn1")) == MemberSymbol(GainGreen1)
  {
    QueryNameIsReplacement("gainGrn1");
    assert ReplaceAll("gainGrn1", "Grn", "Green") == "gainGreen1";
    GainGreen1Symbol();
  }

  lemma GainGreen2Query()
    ensures SymbolName(SnapshotQueryName("gainGrn2")) == MemberSymbol(GainGreen2)
  {
    QueryNameIsReplacement("gainGrn2");
    assert ReplaceAll("gainGrn2", "Grn", "Green") == "gainGreen2";
    GainGreen2Symbol();
  }

}
