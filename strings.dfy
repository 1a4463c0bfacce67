/*
 * The engine string operations the core relies on: FString's comparisons,
 * FString::ParseIntoArray with empty pieces culled, and FString::Join.
 * FString `==`, `!=`, `<` and the keys of a TMap<FString, ...> ignore case:
 * they compare the texts with ASCII letters folded to lower case (Stricmp),
 * and FName equality does the same. Less is the character order on texts;
 * FString's order is Less on the folded texts (LessIgnoringCase).
 */
module Strings {
  /** Lexicographic strict order on texts, character by character. */
  predicate Less(a: string, b: string)
    decreases |a|
  {
    if |a| == 0 then |b| > 0
    else if |b| == 0 then false
    else if a[0] < b[0] then true
    else a[0] == b[0] && Less(a[1..], b[1..])
  }

  lemma {:induction false} LessIrreflexive(a: string)
    ensures !Less(a, a)
    decreases |a|
  {
    if |a| > 0 {
      LessIrreflexive(a[1..]);
    }
  }

  lemma {:induction false} LessTransitive(a: string, b: string, c: string)
    requires Less(a, b) && Less(b, c)
    ensures Less(a, c)
    decreases |a|
  {
    if |a| > 0 && |b| > 0 && |c| > 0 && a[0] == b[0] == c[0] {
      LessTransitive(a[1..], b[1..], c[1..]);
    }
  }

  /** Two different strings are always ordered one way or the other. */
  lemma {:induction false} LessTotal(a: string, b: string)
    requires a != b
    ensures Less(a, b) || Less(b, a)
    decreases |a|
  {
    if |a| > 0 && |b| > 0 && a[0] == b[0] {
      assert a == [a[0]] + a[1..] && b == [b[0]] + b[1..];
      LessTotal(a[1..], b[1..]);
    }
  }

  lemma LessAsymmetric(a: string, b: string)
    requires Less(a, b)
    ensures !Less(b, a)
  {
    if Less(b, a) {
      LessTransitive(a, b, a);
      LessIrreflexive(a);
    }
  }

  /** The longest prefix of `s` that holds no `sep`. */
  function Token(s: string, sep: char): (t: string)
    ensures t <= s && sep !in t
    ensures |t| < |s| ==> s[|t|] == sep
    decreases |s|
  {
    if s == [] || s[0] == sep then [] else [s[0]] + Token(s[1..], sep)
  }

  /** FString::ParseIntoArray(Out, sep) with the default culling of empty
      pieces: the maximal runs of non-separator characters, in order. */
  function SplitCulled(s: string, sep: char): (parts: seq<string>)
    decreases |s|
  {
    if s == [] then []
    else if s[0] == sep then SplitCulled(s[1..], sep)
    else
      var t := Token(s, sep);
      [t] + SplitCulled(s[|t|..], sep)
  }

  /** Pieces are never empty and never hold the separator. */
  lemma {:induction false} SplitCulledPieces(s: string, sep: char)
    ensures forall i :: 0 <= i < |SplitCulled(s, sep)| ==>
              SplitCulled(s, sep)[i] != [] && sep !in SplitCulled(s, sep)[i]
    decreases |s|
  {
    if s == [] {
    } else if s[0] == sep {
      SplitCulledPieces(s[1..], sep);
    } else {
      SplitCulledPieces(s[|Token(s, sep)|..], sep);
    }
  }

  /** FString::Join(Parts, Separator). */
  function Join(parts: seq<string>, sep: string): string
    decreases |parts|
  {
    if parts == [] then ""
    else if |parts| == 1 then parts[0]
    else parts[0] + sep + Join(parts[1..], sep)
  }

  lemma {:induction false} TokenOfJoined(t: string, sep: char, rest: string)
    requires sep !in t
    requires rest == [] || rest[0] == sep
    ensures Token(t + rest, sep) == t
    decreases |t|
  {
    if t != [] {
      assert (t + rest)[1..] == t[1..] + rest;
      TokenOfJoined(t[1..], sep, rest);
    }
  }

  /** Splitting a joined list gives the list back, provided no piece is
      empty or holds the separator (the culling loses empty pieces). */
  lemma {:induction false} SplitJoinRoundTrip(parts: seq<string>, sep: char)
    requires forall i :: 0 <= i < |parts| ==> parts[i] != [] && sep !in parts[i]
    ensures SplitCulled(Join(parts, [sep]), sep) == parts
    decreases |parts|
  {
    if |parts| == 1 {
      TokenOfJoined(parts[0], sep, []);
      assert parts[0] == parts[0] + [];
    } else if |parts| > 1 {
      var j := Join(parts, [sep]);
      var rest := Join(parts[1..], [sep]);
      assert j == parts[0] + ([sep] + rest);
      TokenOfJoined(parts[0], sep, [sep] + rest);
      assert j[|parts[0]|..] == [sep] + rest;
      assert ([sep] + rest)[1..] == rest;
      SplitJoinRoundTrip(parts[1..], sep);
    }
  }

  // ---------------------------------------------------------------------
  // Names

  /** ASCII upper case folded to lower case; any other character as it is. */
  function FoldCase(c: char): char
  {
    if 'A' <= c <= 'Z' then (c as int - 'A' as int + 'a' as int) as char else c
  }

  /** FString and FName equality, which ignore case: the same length, and
      the same character at each position once case is folded. */
  predicate SameName(a: string, b: string)
  {
    |a| == |b| && forall i :: 0 <= i < |a| ==> FoldCase(a[i]) == FoldCase(b[i])
  }

  /** Some text of `ids` equals `wanted` ignoring case. */
  predicate HasName(ids: seq<string>, wanted: string)
  {
    exists i :: 0 <= i < |ids| && SameName(ids[i], wanted)
  }

  /** A name with its case folded throughout. */
  function Folded(s: string): (f: string)
    ensures |f| == |s| && forall i :: 0 <= i < |s| ==> f[i] == FoldCase(s[i])
  {
    seq(|s|, i requires 0 <= i < |s| => FoldCase(s[i]))
  }

  /** Two names are the same name exactly when folding their case makes
      them equal strings; so SameName is an equivalence that contains
      string equality. */
  lemma SameNameIsFoldedEquality(a: string, b: string)
    ensures SameName(a, b) <==> Folded(a) == Folded(b)
    ensures a == b ==> SameName(a, b)
  {
    if Folded(a) == Folded(b) {
      assert forall i :: 0 <= i < |a| ==> Folded(a)[i] == Folded(b)[i];
    }
  }

  /** Case alone never tells two names apart. */
  lemma CaseDoesNotMatter(a: string)
    ensures SameName(a, Folded(a)) && Folded(Folded(a)) == Folded(a)
  {
  }

  /** FString operator<: the folded texts in character order. */
  predicate LessIgnoringCase(a: string, b: string)
  {
    Less(Folded(a), Folded(b))
  }

  /** FString's `<` is a strict weak order: irreflexive, transitive, and two
      texts are unordered exactly when they are the same name ignoring case
      (so "a" and "A" are neither before nor after each other). */
  lemma LessIgnoringCaseIsWeakOrder(a: string, b: string, c: string)
    ensures !LessIgnoringCase(a, a)
    ensures LessIgnoringCase(a, b) && LessIgnoringCase(b, c) ==> LessIgnoringCase(a, c)
    ensures !LessIgnoringCase(a, b) && !LessIgnoringCase(b, a) <==> SameName(a, b)
  {
    LessIrreflexive(Folded(a));
    if LessIgnoringCase(a, b) && LessIgnoringCase(b, c) {
      LessTransitive(Folded(a), Folded(b), Folded(c));
    }
    SameNameIsFoldedEquality(a, b);
    if Folded(a) != Folded(b) {
      LessTotal(Folded(a), Folded(b));
    }
  }

  /** Folding changes the order: "assets.bin" comes before "Config.json" for
      FString's `<`, though 'C' comes before 'a' character by character. */
  lemma FoldingReordersExample()
    ensures LessIgnoringCase("assets.bin", "Config.json")
    ensures Less("Config.json", "assets.bin")
  {
    assert Folded("Config.json")[0] == 'c';
    assert Folded("assets.bin")[0] == 'a';
  }
}
