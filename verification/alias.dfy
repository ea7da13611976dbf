/** The alias generator the schema models use: pydantic's `to_camel`, which
    puts field names written in snake_case on the wire in camelCase. A name
    that already is camelCase is returned as it is; any other name is
    title-cased, an underscore between two letters or digits is dropped, and
    the first letter after the leading underscores is lower-cased. Only ASCII
    letters and digits are told apart from other characters. */
module Alias {
  import opened Seqs

  predicate IsLower(c: char) { 'a' <= c <= 'z' }

  predicate IsUpper(c: char) { 'A' <= c <= 'Z' }

  predicate IsDigit(c: char) { '0' <= c <= '9' }

  predicate IsLetter(c: char) { IsLower(c) || IsUpper(c) }

  predicate IsAlnum(c: char) { IsLetter(c) || IsDigit(c) }

  function ToUpper(c: char): (u: char)
    requires IsLower(c)
    ensures IsUpper(u)
  {
    (c as int - 32) as char
  }

  function ToLower(c: char): (l: char)
    requires IsUpper(c)
    ensures IsLower(l)
  {
    (c as int + 32) as char
  }

  /** A field name as the models declare them: lower-case words joined by
      single underscores. */
  predicate IsSnakeName(s: string) {
    && |s| > 0
    && (forall i :: 0 <= i < |s| ==> IsLower(s[i]) || s[i] == '_')
    && s[0] != '_'
    && s[|s| - 1] != '_'
    && (forall i :: 0 <= i < |s| - 1 ==> !(s[i] == '_' && s[i + 1] == '_'))
  }

  predicate NoUpper(s: string) {
    forall i :: 0 <= i < |s| ==> !IsUpper(s[i])
  }

  /** A word of a field name: lower-case letters only. */
  predicate IsWord(w: string) {
    |w| > 0 && forall i :: 0 <= i < |w| ==> IsLower(w[i])
  }

  /** The name without a final newline, where the pattern's `$` also
      matches. */
  function Trimmed(s: string): (b: string)
    ensures |b| <= |s| && b == s[..|b|]
  {
    if |s| > 0 && s[|s| - 1] == '\n' then s[..|s| - 1] else s
  }

  /** The names `to_camel` returns unchanged: a lower-case letter, then
      letters and digits up to the end or up to a final newline, and nowhere
      a digit directly before a lower-case letter. */
  predicate IsCamelAlready(s: string) {
    && |Trimmed(s)| > 0
    && IsLower(Trimmed(s)[0])
    && (forall i :: 0 <= i < |Trimmed(s)| ==> IsAlnum(Trimmed(s)[i]))
    && !(exists i :: 0 <= i < |s| - 1 && IsDigit(s[i]) && IsLower(s[i + 1]))
  }

  /** The general translation of the rest `s` of a name, given the character
      `prev` just before it ('_' at the start) and whether anything but
      underscores came before it. Title-casing upper-cases a letter after a
      non-letter and lower-cases a letter after a letter; an underscore with
      a letter or digit on both sides is dropped; and the first letter after
      the leading underscores ends up lower-case. */
  function CamelFrom(s: string, prev: char, started: bool): (r: string)
    ensures |r| <= |s|
    decreases |s|
  {
    if |s| == 0 then ""
    else
      Head(s[0], |s| >= 2 && IsAlnum(s[1]), prev, started)
      + CamelFrom(s[1..], s[0], started || s[0] != '_')
  }

  /** What one character `c` becomes, given whether a letter or digit follows
      it, the character before it and whether the name has started. */
  function Head(c: char, alnumNext: bool, prev: char, started: bool): (r: string)
    ensures |r| <= 1
  {
    var capital := started && !IsLetter(prev);
    if c == '_' then (if IsAlnum(prev) && alnumNext then "" else "_")
    else if IsLower(c) && capital then [ToUpper(c)]
    else if IsUpper(c) && !capital then [ToLower(c)]
    else [c]
  }

  /** The camelCase alias of a field name. */
  function ToCamel(s: string): (r: string)
    ensures |r| <= |s|
    ensures IsWord(s) ==> r == s
  {
    if IsCamelAlready(s) then s else CamelFrom(s, '_', false)
  }

  /** The inverse translation: each capital becomes an underscore and its
      lower-case letter. */
  function ToSnake(s: string): (r: string)
    ensures |r| >= |s|
    ensures NoUpper(r)
  {
    if |s| == 0 then ""
    else if IsUpper(s[0]) then ['_', ToLower(s[0])] + ToSnake(s[1..])
    else [s[0]] + ToSnake(s[1..])
  }

  /** Text without underscores or capitals in which a lower-case letter only
      ever follows a lower-case letter passes through unchanged. */
  lemma {:induction false} KeptFrom(s: string, prev: char, started: bool)
    requires forall i :: 0 <= i < |s| ==> s[i] != '_' && !IsUpper(s[i])
    requires forall i :: 0 < i < |s| && IsLower(s[i]) ==> IsLower(s[i - 1])
    requires |s| > 0 && IsLower(s[0]) && started ==> IsLetter(prev)
    ensures CamelFrom(s, prev, started) == s
  {
    if |s| > 0 {
      var t := s[1..];
      forall i | 0 < i < |t| && IsLower(t[i]) ensures IsLower(t[i - 1]) {
        assert t[i] == s[i + 1] && t[i - 1] == s[i];
      }
      if |t| > 0 && IsLower(t[0]) {
        assert s[1] == t[0];
      }
      KeptFrom(t, s[0], started || s[0] != '_');
    }
  }

  /** On names without capitals the camelCase shortcut changes nothing: the
      alias is the general translation. */
  lemma CamelOfNoUpper(s: string)
    requires NoUpper(s)
    ensures ToCamel(s) == CamelFrom(s, '_', false)
  {
    if IsCamelAlready(s) {
      var b := Trimmed(s);
      forall i | 0 <= i < |s| ensures s[i] != '_' && !IsUpper(s[i]) {
        if i < |b| {
          assert b[i] == s[i] && IsAlnum(b[i]);
        }
      }
      forall i | 0 < i < |s| && IsLower(s[i]) ensures IsLower(s[i - 1]) {
        assert b[i - 1] == s[i - 1] && IsAlnum(b[i - 1]);
      }
      KeptFrom(s, '_', false);
    }
  }

  /** A name can be translated piecewise, cut anywhere but just after an
      underscore: the rest is translated knowing the character before the
      cut, after which the name has started. */
  lemma {:induction false} CamelAppend(a: string, b: string, prev: char, started: bool)
    requires |a| > 0 && a[|a| - 1] != '_'
    ensures CamelFrom(a + b, prev, started) == CamelFrom(a, prev, started) + CamelFrom(b, a[|a| - 1], true)
  {
    var s := a + b;
    var next := started || a[0] != '_';
    var h := Head(a[0], |a| >= 2 && IsAlnum(a[1]), prev, started);
    var x := CamelFrom(a[1..], a[0], next);
    var rest := CamelFrom(b, a[|a| - 1], true);
    assert CamelFrom(a, prev, started) == h + x;
    assert CamelFrom(s, prev, started) == h + CamelFrom(s[1..], a[0], next) by {
      assert s[0] == a[0];
      if |a| >= 2 {
        assert s[1] == a[1];
      }
    }
    assert CamelFrom(s[1..], a[0], next) == x + rest by {
      if |a| == 1 {
        assert s[1..] == b && next && a[1..] == [];
      } else {
        assert s[1..] == a[1..] + b;
        assert a[1..][|a[1..]| - 1] == a[|a| - 1];
        CamelAppend(a[1..], b, a[0], next);
      }
    }
    Assoc(h, x, rest);
  }

  /** The words joined by underscores, as the field is declared. */
  function JoinSnake(words: seq<string>): string {
    if |words| == 0 then ""
    else if |words| == 1 then words[0]
    else JoinSnake(words[..|words| - 1]) + "_" + words[|words| - 1]
  }

  function Capitalize(w: string): string {
    if |w| > 0 && IsLower(w[0]) then [ToUpper(w[0])] + w[1..] else w
  }

  /** The words run together, every one after the first capitalised. */
  function JoinCamel(words: seq<string>): string {
    if |words| == 0 then ""
    else if |words| == 1 then words[0]
    else JoinCamel(words[..|words| - 1]) + Capitalize(words[|words| - 1])
  }

  /** The alias of a name made of words is those words in camelCase. */
  lemma AliasOfWords(words: seq<string>)
    requires forall i :: 0 <= i < |words| ==> IsWord(words[i])
    ensures ToCamel(JoinSnake(words)) == JoinCamel(words)
  {
    if |words| > 1 {
      var init := words[..|words| - 1];
      var w := words[|words| - 1];
      assert !IsCamelAlready(JoinSnake(words)) by {
        JoinLast(words);
        WordsEndInLetter(init);
        JoinedNotCamel(JoinSnake(init), w);
      }
      AliasFrom(words);
    }
  }

  /** A name with an underscore between two letters is not camelCase yet. */
  lemma JoinedNotCamel(a: string, w: string)
    requires |a| > 0 && IsWord(w)
    ensures !IsCamelAlready(a + ("_" + w))
  {
    var s := a + ("_" + w);
    assert s[|a|] == '_' && s[|s| - 1] == w[|w| - 1];
    assert Trimmed(s) == s;
    assert !IsAlnum(Trimmed(s)[|a|]);
  }

  /** The general translation of a name made of words. */
  lemma {:induction false} AliasFrom(words: seq<string>)
    requires |words| > 0
    requires forall i :: 0 <= i < |words| ==> IsWord(words[i])
    ensures CamelFrom(JoinSnake(words), '_', false) == JoinCamel(words)
  {
    if |words| == 1 {
      WordKept(words[0]);
    } else {
      AliasFrom(words[..|words| - 1]);
      AliasStep(words);
    }
  }

  /** One more word: the translation grows by the word capitalised. */
  lemma AliasStep(words: seq<string>)
    requires |words| > 1
    requires forall i :: 0 <= i < |words| ==> IsWord(words[i])
    requires CamelFrom(JoinSnake(words[..|words| - 1]), '_', false) == JoinCamel(words[..|words| - 1])
    ensures CamelFrom(JoinSnake(words), '_', false) == JoinCamel(words)
  {
    var init := words[..|words| - 1];
    var w := words[|words| - 1];
    JoinLast(words);
    assert JoinCamel(words) == JoinCamel(init) + Capitalize(w);
    WordsEndInLetter(init);
    CamelOfJoin(JoinSnake(init), w);
  }

  /** A name of several words is its first words, an underscore and its
      last word. */
  lemma JoinLast(words: seq<string>)
    requires |words| > 1
    ensures JoinSnake(words) == JoinSnake(words[..|words| - 1]) + ("_" + words[|words| - 1])
  {
  }

  /** A word on its own is its own translation. */
  lemma WordKept(w: string)
    requires IsWord(w)
    ensures CamelFrom(w, '_', false) == w
  {
    KeptFrom(w, '_', false);
  }

  /** Joining a word to a name translates the word capitalised. */
  lemma CamelOfJoin(a: string, w: string)
    requires |a| > 0 && IsLower(a[|a| - 1]) && IsWord(w)
    ensures CamelFrom(a + ("_" + w), '_', false) == CamelFrom(a, '_', false) + Capitalize(w)
  {
    CamelAppend(a, "_" + w, '_', false);
    CamelOfTail(w, a[|a| - 1]);
  }

  /** An underscore after a letter, before a word, capitalises the word. */
  lemma CamelOfTail(w: string, prev: char)
    requires IsWord(w) && IsLower(prev)
    ensures CamelFrom("_" + w, prev, true) == Capitalize(w)
  {
    UnderscoreDropped(w, prev);
    CapitalFirst(w);
  }

  /** An underscore between a letter and a word disappears. */
  lemma UnderscoreDropped(w: string, prev: char)
    requires IsWord(w) && IsLower(prev)
    ensures CamelFrom("_" + w, prev, true) == CamelFrom(w, '_', true)
  {
    var t := "_" + w;
    assert t[0] == '_' && t[1] == w[0] && t[1..] == w;
    assert Head(t[0], |t| >= 2 && IsAlnum(t[1]), prev, true) == "";
  }

  /** A word after an underscore starts with a capital. */
  lemma CapitalFirst(w: string)
    requires IsWord(w)
    ensures CamelFrom(w, '_', true) == Capitalize(w)
  {
    KeptFrom(w[1..], w[0], true);
    assert Head(w[0], |w| >= 2 && IsAlnum(w[1]), '_', true) == [ToUpper(w[0])];
  }

  /** Names made of words neither are empty nor end in an underscore. */
  lemma {:induction false} WordsEndInLetter(words: seq<string>)
    requires |words| > 0
    requires forall i :: 0 <= i < |words| ==> IsWord(words[i])
    ensures |JoinSnake(words)| > 0
    ensures IsLower(JoinSnake(words)[|JoinSnake(words)| - 1])
  {
    var w := words[|words| - 1];
    assert IsLower(w[|w| - 1]);
    if |words| > 1 {
      WordsEndInLetter(words[..|words| - 1]);
    }
  }

  /** The part of a snake_case name that is still to be translated: no
      capitals, no doubled underscore, and no underscore at the end. */
  predicate SnakeTail(s: string) {
    && (forall i :: 0 <= i < |s| ==> IsLower(s[i]) || s[i] == '_')
    && (|s| > 0 ==> s[|s| - 1] != '_')
    && (forall i :: 0 <= i < |s| - 1 ==> !(s[i] == '_' && s[i + 1] == '_'))
  }

  /** What follows a character of a snake_case tail is a snake_case tail. */
  lemma TailOfTail(s: string, k: nat)
    requires SnakeTail(s) && k <= |s|
    ensures SnakeTail(s[k..])
  {
    var t := s[k..];
    forall i | 0 <= i < |t| ensures IsLower(t[i]) || t[i] == '_' {
      assert t[i] == s[i + k];
    }
    forall i | 0 <= i < |t| - 1 ensures !(t[i] == '_' && t[i + 1] == '_') {
      assert t[i] == s[i + k] && t[i + 1] == s[i + k + 1];
    }
  }

  /** A snake_case name starts with a letter followed by a snake_case tail. */
  lemma SnakeNameStart(s: string)
    requires IsSnakeName(s)
    ensures IsLower(s[0]) && SnakeTail(s[1..]) && NoUpper(s)
    ensures ToCamel(s) == [s[0]] + CamelFrom(s[1..], s[0], true)
  {
    TailOfTail(s, 0);
    assert s[0..] == s;
    TailOfTail(s, 1);
    CamelOfNoUpper(s);
  }

  /** Within a snake_case name the translation is undone by the snake_case
      conversion. */
  lemma {:induction false} SnakeRoundTrip(s: string, prev: char)
    requires SnakeTail(s) && IsLower(prev)
    ensures ToSnake(CamelFrom(s, prev, true)) == s
  {
    if |s| > 0 {
      TailOfTail(s, 1);
      if s[0] == '_' {
        assert |s| >= 2 && IsLower(s[1]);
        var t := s[1..];
        assert t[0] == s[1] && t[1..] == s[2..];
        TailOfTail(s, 2);
        SnakeRoundTrip(s[2..], s[1]);
        var c := CamelFrom(s, prev, true);
        assert c == [ToUpper(s[1])] + CamelFrom(s[2..], s[1], true);
        assert c[0] == ToUpper(s[1]) && c[1..] == CamelFrom(s[2..], s[1], true);
        assert ToLower(ToUpper(s[1])) == s[1];
        assert ToSnake(c) == ['_', s[1]] + s[2..];
      } else {
        SnakeRoundTrip(s[1..], s[0]);
        var c := CamelFrom(s, prev, true);
        assert c[0] == s[0] && c[1..] == CamelFrom(s[1..], s[0], true);
        assert ToSnake(c) == [s[0]] + s[1..];
      }
    }
  }

  /** Translating a snake_case name to camelCase loses nothing. */
  lemma CamelRoundTrip(s: string)
    requires IsSnakeName(s)
    ensures ToSnake(ToCamel(s)) == s
  {
    SnakeNameStart(s);
    SnakeRoundTrip(s[1..], s[0]);
    var c := ToCamel(s);
    assert c[0] == s[0] && c[1..] == CamelFrom(s[1..], s[0], true);
  }

  /** Distinct snake_case names have distinct aliases. */
  lemma CamelInjective(a: string, b: string)
    requires IsSnakeName(a) && IsSnakeName(b)
    requires a != b
    ensures ToCamel(a) != ToCamel(b)
  {
    CamelRoundTrip(a);
    CamelRoundTrip(b);
  }

  /** Off snake_case names `to_camel` capitalises a letter after a digit... */
  lemma CamelAfterDigit()
    ensures ToCamel("a1b") == "a1B"
  {
    var s := "a1b";
    assert IsDigit(s[1]) && IsLower(s[2]);
  }

  /** ...and so gives a name with an underscore after the digit the same
      alias: it is no longer one to one. */
  lemma CamelSharedAlias()
    ensures ToCamel("a1_b") == ToCamel("a1b")
  {
    CamelAfterDigit();
    var t := "a1_b";
    assert !IsAlnum(t[2]) && Trimmed(t) == t;
  }

  /** An underscore before a digit is dropped. */
  lemma CamelBeforeDigit()
    ensures ToCamel("a_1") == "a1"
  {
    var s := "a_1";
    assert !IsAlnum(s[1]) && Trimmed(s) == s;
  }

  /** In a snake_case name every underscore separates two words, so its alias
      has no underscore left and one character fewer per underscore. */
  lemma CamelOfSnakeName(s: string)
    requires IsSnakeName(s)
    ensures '_' !in ToCamel(s)
    ensures |ToCamel(s)| + CountUnderscores(s) == |s|
  {
    SnakeNameStart(s);
    CamelTail(s[1..], s[0]);
    assert CountUnderscores(s) == CountUnderscores(s[1..]);
  }

  function CountUnderscores(s: string): nat {
    if |s| == 0 then 0 else (if s[0] == '_' then 1 else 0) + CountUnderscores(s[1..])
  }

  lemma {:induction false} CamelTail(s: string, prev: char)
    requires SnakeTail(s) && IsLower(prev)
    ensures '_' !in CamelFrom(s, prev, true)
    ensures |CamelFrom(s, prev, true)| + CountUnderscores(s) == |s|
  {
    if |s| > 0 {
      if s[0] == '_' {
        assert |s| >= 2 && IsLower(s[1]);
        var t := s[1..];
        assert t[0] == s[1] && t[1..] == s[2..];
        TailOfTail(s, 2);
        CamelTail(s[2..], s[1]);
        assert CamelFrom(s, prev, true) == [ToUpper(s[1])] + CamelFrom(s[2..], s[1], true);
        assert CountUnderscores(s[1..]) == CountUnderscores(s[2..]);
      } else {
        TailOfTail(s, 1);
        CamelTail(s[1..], s[0]);
      }
    }
  }
}
