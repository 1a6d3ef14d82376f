/// Texts as the runner takes them apart and puts them together: strings.Fields and
/// strings.Join of Go, and when a joined text gives its parts back.
module Texts {
  // ---- strings.Fields ----

  /** unicode.IsSpace; NUL is not one of them. */
  predicate IsSpace(c: char) {
    || c == '\t' || c == '\n' || c == '\U{0B}' || c == '\U{0C}' || c == '\r' || c == ' '
    || c == '\U{85}' || c == '\U{A0}' || c == '\U{1680}' || '\U{2000}' <= c <= '\U{200A}'
    || c == '\U{2028}' || c == '\U{2029}' || c == '\U{202F}' || c == '\U{205F}' || c == '\U{3000}'
  }

  function Word(word: string): seq<string> {
    if word == "" then [] else [word]
  }

  /** strings.Fields, after `word` has been read of the current field. */
  function FieldsAfter(word: string, s: string): seq<string>
    decreases |s|
  {
    if s == "" then Word(word)
    else if IsSpace(s[0]) then Word(word) + FieldsAfter("", s[1..])
    else FieldsAfter(word + [s[0]], s[1..])
  }

  function Fields(s: string): seq<string> {
    FieldsAfter("", s)
  }

  lemma {:induction false} FieldsAreWords(word: string, s: string)
    requires forall c :: c in word ==> !IsSpace(c)
    ensures forall f :: f in FieldsAfter(word, s) ==> f != "" && forall c :: c in f ==>
          !IsSpace(c) && (c in word || c in s)
    decreases |s|
  {
    if s != "" {
      if IsSpace(s[0]) {
        FieldsAreWords("", s[1..]);
      } else {
        FieldsAreWords(word + [s[0]], s[1..]);
      }
    }
  }

  lemma FieldsStep(word: string, c: char, s: string)
    ensures FieldsAfter(word, "") == Word(word)
    ensures FieldsAfter(word, [c] + s)
         == if IsSpace(c) then Word(word) + FieldsAfter("", s) else FieldsAfter(word + [c], s)
  {
    assert ([c] + s)[1..] == s;
  }

  lemma {:induction false} FieldsAfterSpace(word: string, x: string, c: char, y: string)
    requires IsSpace(c)
    ensures FieldsAfter(word, x + [c] + y) == FieldsAfter(word, x) + Fields(y)
    decreases |x|
  {
    hide IsSpace, FieldsAfter;
    if x == "" {
      assert x + [c] + y == [c] + y;
      FieldsStep(word, c, y);
    } else {
      var d, tail := x[0], x[1..];
      assert x == [d] + tail && x + [c] + y == [d] + (tail + [c] + y);
      FieldsStep(word, d, tail + [c] + y);
      FieldsStep(word, d, tail);
      FieldsAfterSpace(if IsSpace(d) then "" else word + [d], tail, c, y);
    }
  }

  lemma {:induction false} FieldsOfWord(word: string, s: string)
    requires forall c :: c in s ==> !IsSpace(c)
    ensures FieldsAfter(word, s) == Word(word + s)
    decreases |s|
  {
    if s == "" {
      assert word + s == word;
    } else {
      FieldsOfWord(word + [s[0]], s[1..]);
      assert word + [s[0]] + s[1..] == word + s;
    }
  }

  /** Fields breaks a text at its white space, wherever that is, and nowhere else: these
      laws leave no other result for any text. */
  lemma FieldsBreakAtSpaces(x: string, c: char, y: string)
    ensures IsSpace(c) ==> Fields(x + [c] + y) == Fields(x) + Fields(y)
    ensures (forall d :: d in x ==> !IsSpace(d)) ==> Fields(x) == if x == "" then [] else [x]
  {
    hide FieldsAfter, IsSpace;
    if IsSpace(c) {
      FieldsAfterSpace("", x, c, y);
    }
    if forall d :: d in x ==> !IsSpace(d) {
      FieldsOfWord("", x);
      assert "" + x == x;
    }
  }

  // ---- strings.Join ----

  /** The parts in a row, with the separator between them. */
  function Join(sep: char, parts: seq<string>): string {
    if parts == [] then ""
    else if |parts| == 1 then parts[0]
    else parts[0] + [sep] + Join(sep, parts[1..])
  }

  function Split(sep: char, s: string): (parts: seq<string>)
    ensures parts != []
  {
    if s == "" then [""]
    else
      var rest := Split(sep, s[1..]);
      if s[0] == sep then [""] + rest else [[s[0]] + rest[0]] + rest[1..]
  }

  /** The parts, broken up further at every separator inside them. */
  function Pieces(sep: char, parts: seq<string>): seq<string> {
    if parts == [] then [] else Split(sep, parts[0]) + Pieces(sep, parts[1..])
  }

  lemma SplitStep(sep: char, c: char, s: string)
    ensures Split(sep, "") == [""]
    ensures Split(sep, [c] + s)
         == if c == sep then [""] + Split(sep, s) else [[c] + Split(sep, s)[0]] + Split(sep, s)[1..]
  {
    assert ([c] + s)[1..] == s;
  }

  lemma FrontThenMore<T>(head: T, parts: seq<T>, more: seq<T>)
    requires parts != []
    ensures [head] + (parts + more) == ([head] + parts) + more
    ensures (parts + more)[0] == parts[0]
    ensures [head] + (parts + more)[1..] == ([head] + parts[1..]) + more
  {
  }

  lemma SplitCons(sep: char, c: char, s: string, t: string, more: seq<string>)
    requires Split(sep, t) == Split(sep, s) + more
    ensures Split(sep, [c] + t) == Split(sep, [c] + s) + more
  {
    hide Split;
    SplitStep(sep, c, s);
    SplitStep(sep, c, t);
    FrontThenMore(if c == sep then "" else [c] + Split(sep, s)[0], Split(sep, s), more);
  }

  lemma {:induction false} SplitAtSep(sep: char, a: string, b: string)
    ensures Split(sep, a + [sep] + b) == Split(sep, a) + Split(sep, b)
  {
    hide Split;
    if a == "" {
      SplitStep(sep, sep, b);
      assert a + [sep] + b == [sep] + b;
    } else {
      var c, tail := a[0], a[1..];
      SplitAtSep(sep, tail, b);
      SplitCons(sep, c, tail, tail + [sep] + b, Split(sep, b));
      assert a == [c] + tail;
      assert a + [sep] + b == [c] + (tail + [sep] + b);
    }
  }

  lemma {:induction false} JoinSplit(sep: char, s: string)
    ensures Join(sep, Split(sep, s)) == s
  {
    hide Split;
    SplitStep(sep, sep, "");
    if s != "" {
      JoinSplit(sep, s[1..]);
      SplitStep(sep, s[0], s[1..]);
      var rest, parts := Split(sep, s[1..]), Split(sep, s);
      assert s == [s[0]] + s[1..];
      if s[0] == sep {
        assert parts[1..] == rest;
      } else {
        assert parts[1..] == rest[1..];
      }
    }
  }

  lemma {:induction false} SplitJoin(sep: char, parts: seq<string>)
    requires parts != []
    ensures Split(sep, Join(sep, parts)) == Pieces(sep, parts)
  {
    if |parts| == 1 {
      assert Pieces(sep, parts[1..]) == [];
    } else {
      SplitAtSep(sep, parts[0], Join(sep, parts[1..]));
      SplitJoin(sep, parts[1..]);
    }
  }

  lemma {:induction false} NoSepSplit(sep: char, s: string)
    requires sep !in s
    ensures Split(sep, s) == [s]
  {
    hide Split;
    SplitStep(sep, sep, "");
    if s != "" {
      NoSepSplit(sep, s[1..]);
      SplitStep(sep, s[0], s[1..]);
      assert s == [s[0]] + s[1..];
    }
  }

  lemma {:induction false} NoSepPieces(sep: char, parts: seq<string>)
    requires forall p :: p in parts ==> sep !in p
    ensures Pieces(sep, parts) == parts
  {
    if parts != [] {
      assert parts[0] in parts;
      NoSepSplit(sep, parts[0]);
      NoSepPieces(sep, parts[1..]);
      assert parts == [parts[0]] + parts[1..];
    }
  }

  lemma {:induction false} SepSplits(sep: char, s: string)
    requires sep in s
    ensures |Split(sep, s)| > 1
  {
    if s[0] != sep {
      SepSplits(sep, s[1..]);
    }
  }

  lemma {:induction false} PiecesGrow(sep: char, parts: seq<string>)
    ensures |Pieces(sep, parts)| >= |parts|
    ensures (exists p :: p in parts && sep in p) ==> |Pieces(sep, parts)| > |parts|
  {
    hide Split;
    if parts != [] {
      PiecesGrow(sep, parts[1..]);
      if sep in parts[0] {
        SepSplits(sep, parts[0]);
      } else if p :| p in parts && sep in p {
        assert p in parts[1..];
      }
    }
  }

  /** A joined text gives its parts back, all of them and in order, exactly when none of
      them holds the separator. */
  lemma JoinGivesBackExactly(sep: char, parts: seq<string>)
    requires parts != []
    ensures Split(sep, Join(sep, parts)) == parts <==> forall p :: p in parts ==> sep !in p
  {
    SplitJoin(sep, parts);
    PiecesGrow(sep, parts);
    if forall p :: p in parts ==> sep !in p {
      NoSepPieces(sep, parts);
    }
  }

  lemma JoinedExactly(sep: char, x: seq<string>, y: seq<string>)
    requires x != [] && y != []
    ensures Join(sep, x) == Join(sep, y) <==> Pieces(sep, x) == Pieces(sep, y)
  {
    SplitJoin(sep, x);
    SplitJoin(sep, y);
    JoinSplit(sep, Join(sep, x));
    JoinSplit(sep, Join(sep, y));
  }

  lemma JoinTwo(sep: char, a: string, b: string)
    ensures Join(sep, [a, b]) == a + [sep] + b
  {
    assert Join(sep, [b]) == b;
  }
}
