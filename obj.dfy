/** The key-casing helper class (src/lib/utils/Obj.ts): it wraps an object and
    returns copies whose keys are converted between snake_case and camelCase.
    An object is the sequence of its (key, value) entries in `for...in` order.
    Case mapping is ASCII only. */
module Obj {

  predicate IsSeparator(c: char) {
    c == '-' || c == '_'
  }

  function ToUpper(c: char): char {
    if 'a' <= c <= 'z' then (c as int - 32) as char else c
  }

  function ToLower(c: char): char {
    if 'A' <= c <= 'Z' then (c as int + 32) as char else c
  }

  function LowerString(s: string): string {
    seq(|s|, i requires 0 <= i < |s| => ToLower(s[i]))
  }

  /** `/^[a-zA-Z0-9]+$/` applied to one letter. */
  predicate IsAlphanumeric(c: char) {
    'a' <= c <= 'z' || 'A' <= c <= 'Z' || '0' <= c <= '9'
  }

  // ---------------------------------------------------------------------------
  // stringToCamel: the state of the loop after a prefix of the input

  datatype CamelAcc = CamelAcc(output: string, shouldUpperCaseLetter: bool)

  function CamelStep(acc: CamelAcc, letter: char): CamelAcc {
    if !IsSeparator(letter) then
      CamelAcc(acc.output + [if acc.shouldUpperCaseLetter then ToUpper(letter) else letter], false)
    else
      CamelAcc(acc.output, true)
  }

  function CamelState(s: string): CamelAcc {
    if s == [] then CamelAcc("", false) else CamelStep(CamelState(s[..|s| - 1]), s[|s| - 1])
  }

  function Camel(s: string): string {
    CamelState(s).output
  }

  // ---------------------------------------------------------------------------
  // stringToSnake: an upper-case letter (or digit) is held back and written,
  // lower-cased and after an underscore, together with the letter after it

  datatype SnakeAcc = SnakeAcc(output: string, insertUnderscore: bool, previousLetter: string)

  /** The letter is held back instead of written. */
  predicate Holds(letter: char, previousLetter: string) {
    IsAlphanumeric(letter) && letter == ToUpper(letter) && previousLetter == LowerString(previousLetter)
  }

  function SnakeStep(acc: SnakeAcc, letter: char): SnakeAcc {
    if acc.insertUnderscore then
      SnakeAcc(acc.output + "_" + LowerString(acc.previousLetter) + [letter], false, [letter])
    else if Holds(letter, acc.previousLetter) then
      SnakeAcc(acc.output, true, [letter])
    else
      SnakeAcc(acc.output + [letter], false, [letter])
  }

  function SnakeState(s: string): SnakeAcc {
    if s == [] then SnakeAcc("", false, "") else SnakeStep(SnakeState(s[..|s| - 1]), s[|s| - 1])
  }

  function Snake(s: string): string {
    SnakeState(s).output
  }

  // ---------------------------------------------------------------------------
  // convertToCamel / convertToSnake: a new object keyed by the converted keys

  /** The object the loop has built after the given entries: a later entry
      whose converted key collides overwrites an earlier one. */
  function ConvertKeys<V>(entries: seq<(string, V)>, convert: string -> string): map<string, V> {
    if entries == [] then map[]
    else
      var last := entries[|entries| - 1];
      ConvertKeys(entries[..|entries| - 1], convert)[convert(last.0) := last.1]
  }

  class Obj<V> {
    const obj: seq<(string, V)>

    constructor(obj: seq<(string, V)>)
      ensures this.obj == obj
    {
      this.obj := obj;
    }

    method ConvertToCamel() returns (newObject: map<string, V>)
      ensures newObject == ConvertKeys(obj, Camel)
    {
      newObject := map[];
      for i := 0 to |obj|
        invariant newObject == ConvertKeys(obj[..i], Camel)
      {
        assert obj[..i + 1][..i] == obj[..i];
        var key := StringToCamel(obj[i].0);
        newObject := newObject[key := obj[i].1];
      }
      assert obj[..|obj|] == obj;
    }

    method ConvertToSnake() returns (newObject: map<string, V>)
      ensures newObject == ConvertKeys(obj, Snake)
    {
      newObject := map[];
      for i := 0 to |obj|
        invariant newObject == ConvertKeys(obj[..i], Snake)
      {
        assert obj[..i + 1][..i] == obj[..i];
        var key := StringToSnake(obj[i].0);
        newObject := newObject[key := obj[i].1];
      }
      assert obj[..|obj|] == obj;
    }

    /** The wrapped obj itself, as given to the constructor. */
    method Original() returns (o: seq<(string, V)>)
      ensures o == obj
    {
      o := obj;
    }

    method StringToCamel(input: string) returns (output: string)
      ensures output == Camel(input)
    {
      output := "";
      var shouldUpperCaseLetter := false;
      for i := 0 to |input|
        invariant CamelAcc(output, shouldUpperCaseLetter) == CamelState(input[..i])
      {
        assert input[..i + 1][..i] == input[..i];
        var letter := input[i];
        if letter != '-' && letter != '_' {
          output := output + [if shouldUpperCaseLetter then ToUpper(letter) else letter];
          shouldUpperCaseLetter := false;
        } else {
          shouldUpperCaseLetter := true;
        }
      }
      assert input[..|input|] == input;
    }

    method StringToSnake(input: string) returns (output: string)
      ensures output == Snake(input)
    {
      output := "";
      var insertUnderscore := false;
      var previousLetter := "";
      for i := 0 to |input|
        invariant SnakeAcc(output, insertUnderscore, previousLetter) == SnakeState(input[..i])
      {
        assert input[..i + 1][..i] == input[..i];
        var letter := input[i];
        if insertUnderscore {
          output := output + "_" + LowerString(previousLetter) + [letter];
          insertUnderscore := false;
        } else if IsAlphanumeric(letter) && letter == ToUpper(letter) && previousLetter == LowerString(previousLetter) {
          insertUnderscore := true;
        } else {
          output := output + [letter];
        }
        previousLetter := [letter];
      }
      assert input[..|input|] == input;
    }
  }

  // ---------------------------------------------------------------------------
  // Properties of stringToCamel

  /** The output never holds a separator. */
  lemma {:induction false} CamelHasNoSeparators(s: string)
    ensures forall i :: 0 <= i < |Camel(s)| ==> !IsSeparator(Camel(s)[i])
  {
    if s != [] {
      var p := s[..|s| - 1];
      CamelHasNoSeparators(p);
      var acc := CamelState(p);
      var letter := s[|s| - 1];
      assert CamelState(s) == CamelStep(acc, letter);
      assert Camel(p) == acc.output;
      if !IsSeparator(letter) {
        var written := if acc.shouldUpperCaseLetter then ToUpper(letter) else letter;
        assert !IsSeparator(written);
        assert Camel(s) == acc.output + [written];
        forall i | 0 <= i < |Camel(s)|
          ensures !IsSeparator(Camel(s)[i])
        {
          if i < |acc.output| {
            assert Camel(s)[i] == acc.output[i];
          }
        }
      } else {
        assert Camel(s) == acc.output;
      }
    }
  }

  /** The flag is set exactly when the last letter read was a separator. */
  lemma CamelFlagAfterSeparator(s: string)
    ensures CamelState(s).shouldUpperCaseLetter <==> |s| > 0 && IsSeparator(s[|s| - 1])
  {
  }

  /** A separator followed by a letter writes just that letter, upper-cased. */
  lemma SeparatorUpperCasesNext(s: string, sep: char, letter: char)
    requires IsSeparator(sep) && !IsSeparator(letter)
    ensures Camel(s + [sep, letter]) == Camel(s) + [ToUpper(letter)]
  {
    var s1 := s + [sep];
    assert s1[..|s|] == s;
    assert CamelState(s1) == CamelAcc(Camel(s), true);
    assert (s + [sep, letter])[..|s1|] == s1;
    assert (s + [sep, letter]) == s1 + [letter];
  }

  /** A letter that does not follow a separator is copied unchanged. */
  lemma LetterAfterLetterKept(s: string, letter: char)
    requires !IsSeparator(letter) && (s == [] || !IsSeparator(s[|s| - 1]))
    ensures Camel(s + [letter]) == Camel(s) + [letter]
  {
    assert (s + [letter])[..|s|] == s;
    CamelFlagAfterSeparator(s);
  }

  /** A key with no separator is its own camelCase form. */
  lemma {:induction false} CamelIdentityWithoutSeparators(s: string)
    requires forall i :: 0 <= i < |s| ==> !IsSeparator(s[i])
    ensures Camel(s) == s
    ensures !CamelState(s).shouldUpperCaseLetter
  {
    if s != [] {
      var p := s[..|s| - 1];
      CamelIdentityWithoutSeparators(p);
      assert s == p + [s[|s| - 1]];
    }
  }

  /** A key made of two separator-free words joined by a separator has the
      second word's first letter upper-cased and the separator removed. */
  lemma CamelJoinsWords(w1: string, sep: char, w2: string)
    requires IsSeparator(sep) && |w2| > 0
    requires forall i :: 0 <= i < |w1| ==> !IsSeparator(w1[i])
    requires forall i :: 0 <= i < |w2| ==> !IsSeparator(w2[i])
    ensures Camel(w1 + [sep] + w2) == w1 + [ToUpper(w2[0])] + w2[1..]
  {
    CamelIdentityWithoutSeparators(w1);
    SeparatorUpperCasesNext(w1, sep, w2[0]);
    assert w1 + [sep] + w2[..1] == w1 + [sep, w2[0]];
    RestKeptAfterWord(w1 + [sep] + w2[..1], w2, 1);
    assert (w1 + [sep] + w2[..1]) + w2[1..] == w1 + [sep] + w2;
  }

  lemma {:induction false} RestKeptAfterWord(prefix: string, w: string, k: nat)
    requires 1 <= k <= |w| && |prefix| > 0 && prefix[|prefix| - 1] == w[k - 1]
    requires forall i :: 0 <= i < |w| ==> !IsSeparator(w[i])
    ensures Camel(prefix + w[k..]) == Camel(prefix) + w[k..]
    decreases |w| - k
  {
    if k < |w| {
      LetterAfterLetterKept(prefix, w[k]);
      RestKeptAfterWord(prefix + [w[k]], w, k + 1);
      assert prefix + w[k..] == (prefix + [w[k]]) + w[k + 1..];
      assert w[k..] == [w[k]] + w[k + 1..];
    } else {
      assert prefix + w[k..] == prefix;
    }
  }

  lemma CamelExamples()
    ensures Camel("foo_bar") == "fooBar"
    ensures Camel("triangle_floor") == "triangleFloor"
    ensures Camel("fooBar") == "fooBar" && Camel("triangleFloor") == "triangleFloor"
  {
    CamelJoinsWords("foo", '_', "bar");
    assert "foo" + ['_'] + "bar" == "foo_bar";
    CamelJoinsWords("triangle", '_', "floor");
    assert "triangle" + ['_'] + "floor" == "triangle_floor";
    CamelIdentityWithoutSeparators("fooBar");
    CamelIdentityWithoutSeparators("triangleFloor");
  }

  // ---------------------------------------------------------------------------
  // Properties of stringToSnake

  /** The letter before the next one is remembered: an empty string at the start. */
  lemma SnakePreviousLetter(s: string)
    ensures SnakeState(s).previousLetter == if s == [] then "" else [s[|s| - 1]]
  {
  }

  /** A held letter followed by any letter writes "_", the held letter
      lower-cased, and that letter. */
  lemma HeldLetterWrittenWithNext(s: string, held: char, next: char)
    requires !SnakeState(s).insertUnderscore && Holds(held, SnakeState(s).previousLetter)
    ensures Snake(s + [held, next]) == Snake(s) + ['_', ToLower(held), next]
    ensures !SnakeState(s + [held, next]).insertUnderscore
  {
    var s1 := s + [held];
    var s2 := s + [held, next];
    assert s1[..|s|] == s;
    assert SnakeState(s1) == SnakeAcc(Snake(s), true, [held]);
    assert s2[..|s2| - 1] == s1 && s2[|s2| - 1] == next;
    assert SnakeState(s2) == SnakeStep(SnakeState(s1), next);
    assert LowerString([held]) == [ToLower(held)];
    assert Snake(s2) == Snake(s) + "_" + [ToLower(held)] + [next];
    assert Snake(s) + "_" + [ToLower(held)] + [next] == Snake(s) + ['_', ToLower(held), next];
  }

  /** A held letter is only written on the next iteration: at the end of the
      key it is dropped. */
  lemma TrailingHeldLetterDropped(s: string, held: char)
    requires !SnakeState(s).insertUnderscore && Holds(held, SnakeState(s).previousLetter)
    ensures Snake(s + [held]) == Snake(s)
  {
    assert (s + [held])[..|s|] == s;
  }

  /** Letters that are neither upper-case nor digits are copied as they are
      when no letter is held. */
  lemma {:induction false} PlainLettersKept(s: string, rest: string)
    requires !SnakeState(s).insertUnderscore
    requires forall i :: 0 <= i < |rest| ==> !(IsAlphanumeric(rest[i]) && rest[i] == ToUpper(rest[i]))
    ensures Snake(s + rest) == Snake(s) + rest
    ensures !SnakeState(s + rest).insertUnderscore
  {
    if rest == [] {
      assert s + rest == s;
    } else {
      var r, last := rest[..|rest| - 1], rest[|rest| - 1];
      PlainLettersKept(s, r);
      var before := SnakeState(s + r);
      var whole := s + rest;
      assert whole[..|whole| - 1] == s + r;
      assert whole[|whole| - 1] == last;
      assert SnakeState(whole) == SnakeStep(before, last);
      assert !Holds(last, before.previousLetter);
      assert SnakeState(whole).output == before.output + [last];
      AppendLast(Snake(s), rest);
    }
  }

  /** Writing the last element of `b` after the rest of it. */
  lemma AppendLast<T>(a: seq<T>, b: seq<T>)
    requires |b| > 0
    ensures a + b[..|b| - 1] + [b[|b| - 1]] == a + b
  {
    assert b == b[..|b| - 1] + [b[|b| - 1]];
  }

  /** A key without upper-case letters or digits is its own snake_case form. */
  lemma SnakeIdentityWithoutCapitals(s: string)
    requires forall i :: 0 <= i < |s| ==> !(IsAlphanumeric(s[i]) && s[i] == ToUpper(s[i]))
    ensures Snake(s) == s
  {
    PlainLettersKept("", s);
    assert "" + s == s;
  }

  /** Two lower-case words joined by one capital: the capital becomes "_"
      and its lower-case form. */
  lemma SnakeSplitsWords(w1: string, capital: char, w2: string)
    requires |w2| > 0 && IsAlphanumeric(capital) && capital == ToUpper(capital)
    requires forall i :: 0 <= i < |w1| ==> !(IsAlphanumeric(w1[i]) && w1[i] == ToUpper(w1[i]))
    requires forall i :: 0 <= i < |w2| ==> !(IsAlphanumeric(w2[i]) && w2[i] == ToUpper(w2[i]))
    ensures Snake(w1 + [capital] + w2) == w1 + ['_', ToLower(capital)] + w2
  {
    PlainLettersKept("", w1);
    assert "" + w1 == w1;
    NoCapitalIsLower(w1);
    var s2 := w1 + [capital, w2[0]];
    HeldLetterWrittenWithNext(w1, capital, w2[0]);
    PlainLettersKept(s2, w2[1..]);
    RegroupAfterOne(w1, capital, w2);
    RegroupAfterTwo(w1, '_', ToLower(capital), w2);
  }

  /** Moving the first element of `b` across the concatenation. */
  lemma RegroupAfterOne<T>(a: seq<T>, x: T, b: seq<T>)
    requires |b| > 0
    ensures a + [x, b[0]] + b[1..] == a + [x] + b
  {
    assert b == [b[0]] + b[1..];
    assert [x, b[0]] == [x] + [b[0]];
  }

  lemma RegroupAfterTwo<T>(a: seq<T>, x: T, y: T, b: seq<T>)
    requires |b| > 0
    ensures a + [x, y, b[0]] + b[1..] == a + [x, y] + b
  {
    assert b == [b[0]] + b[1..];
    assert [x, y, b[0]] == [x, y] + [b[0]];
  }

  /** After letters that are neither upper-case nor digits, the remembered
      letter is its own lower-case form. */
  lemma NoCapitalIsLower(w: string)
    requires forall i :: 0 <= i < |w| ==> !(IsAlphanumeric(w[i]) && w[i] == ToUpper(w[i]))
    ensures SnakeState(w).previousLetter == LowerString(SnakeState(w).previousLetter)
  {
    SnakePreviousLetter(w);
    if w != [] {
      assert LowerString([w[|w| - 1]]) == [ToLower(w[|w| - 1])];
    }
  }

  /** The renames of the snake_case tests. */
  lemma SnakeExamples()
    ensures Snake("fooBar") == "foo_bar"
    ensures Snake("triangleFloor") == "triangle_floor"
  {
    SnakeFooBar();
    SnakeTriangleFloor();
  }

  lemma SnakeFooBar()
    ensures Snake("fooBar") == "foo_bar"
  {
    SnakeSplitsWords("foo", 'B', "ar");
    assert "foo" + ['B'] + "ar" == "fooBar";
    assert "foo" + ['_', 'b'] + "ar" == "foo_bar";
  }

  lemma SnakeTriangleFloor()
    ensures Snake("triangleFloor") == "triangle_floor"
  {
    SnakeSplitsWords("triangle", 'F', "loor");
    assert "triangle" + ['F'] + "loor" == "triangleFloor";
    assert "triangle" + ['_', 'f'] + "loor" == "triangle_floor";
  }

  /** The test's keys that are already snake_case stay as they are. */
  lemma SnakeKeysKept()
    ensures Snake("foo_bar") == "foo_bar" && Snake("triangle_floor") == "triangle_floor"
  {
    SnakeIdentityWithoutCapitals("foo_bar");
    SnakeIdentityWithoutCapitals("triangle_floor");
  }

  // ---------------------------------------------------------------------------
  // Properties of convertToCamel / convertToSnake

  /** The new keys are exactly the converted old keys. */
  lemma {:induction false} ConvertedKeys<V>(entries: seq<(string, V)>, convert: string -> string)
    ensures ConvertKeys(entries, convert).Keys == set i | 0 <= i < |entries| :: convert(entries[i].0)
  {
    if entries != [] {
      var p := entries[..|entries| - 1];
      ConvertedKeys(p, convert);
      assert forall i :: 0 <= i < |p| ==> p[i] == entries[i];
    }
  }

  /** Every value of the new obj is the value of an entry whose key
      converts to its key: only keys change. */
  lemma {:induction false} ConvertedValuesComeFromEntries<V>(entries: seq<(string, V)>, convert: string -> string)
    ensures forall k :: k in ConvertKeys(entries, convert) ==>
      exists i :: 0 <= i < |entries| && convert(entries[i].0) == k && ConvertKeys(entries, convert)[k] == entries[i].1
  {
    if entries != [] {
      var p := entries[..|entries| - 1];
      ConvertedValuesComeFromEntries(p, convert);
      assert forall i :: 0 <= i < |p| ==> p[i] == entries[i];
    }
  }

  /** When no two keys convert to the same key, every value is kept under
      its own converted key. */
  lemma {:induction false} ConvertKeepsEveryValue<V>(entries: seq<(string, V)>, convert: string -> string)
    requires forall i, j :: 0 <= i < j < |entries| ==> convert(entries[i].0) != convert(entries[j].0)
    ensures forall i :: 0 <= i < |entries| ==>
      convert(entries[i].0) in ConvertKeys(entries, convert) && ConvertKeys(entries, convert)[convert(entries[i].0)] == entries[i].1
  {
    if entries != [] {
      var p := entries[..|entries| - 1];
      assert forall i :: 0 <= i < |p| ==> p[i] == entries[i];
      ConvertKeepsEveryValue(p, convert);
    }
  }
}
