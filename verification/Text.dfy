/** The texts the policy writes and the report searches. */
module Text {
  import opened Types

  // ---- white space -------------------------------------------------------------------------------

  /** Nothing but spaces, tabs and line ends. */
  predicate Blank(s: string) {
    forall i :: 0 <= i < |s| ==> s[i] in " \t\n\r"
  }

  /** Neither begins nor ends with white space. */
  predicate Tight(s: string) {
    s != "" ==> s[0] !in " \t\n\r" && s[|s| - 1] !in " \t\n\r"
  }

  lemma {:induction false} StartCut(s: string) returns (a: string)
    ensures Blank(a) && s == a + TrimStart(s)
    ensures TrimStart(s) != "" ==> TrimStart(s)[0] !in " \t\n\r"
  {
    if s != "" && IsSpace(s[0]) {
      var rest := StartCut(s[1..]);
      a := [s[0]] + rest;
    } else {
      a := "";
    }
  }

  lemma {:induction false} EndCut(s: string) returns (b: string)
    ensures Blank(b) && s == TrimEnd(s) + b
    ensures TrimEnd(s) != "" ==> TrimEnd(s)[0] == s[0] && TrimEnd(s)[|TrimEnd(s)| - 1] !in " \t\n\r"
  {
    var n := |s| - 1;
    if s != "" && IsSpace(s[n]) {
      var rest := EndCut(s[..n]);
      b := rest + [s[n]];
      assert s[..n] + [s[n]] == s;
    } else {
      b := "";
    }
  }

  /** Trimming removes white space from both ends, and all of it. */
  lemma {:induction false} TrimCuts(s: string) returns (a: string, b: string)
    ensures Blank(a) && Blank(b) && s == a + Trim(s) + b && Tight(Trim(s))
  {
    a := StartCut(s);
    b := EndCut(TrimStart(s));
    assert s == a + (Trim(s) + b);
  }

  lemma {:induction false} TrimOfBlankFirst(a: string, s: string)
    requires Blank(a)
    ensures TrimStart(a + s) == TrimStart(s)
  {
    if a == "" {
      assert a + s == s;
    } else {
      assert (a + s)[1..] == a[1..] + s;
      TrimOfBlankFirst(a[1..], s);
    }
  }

  lemma {:induction false} TrimOfBlankLast(s: string, b: string)
    requires Blank(b)
    ensures TrimEnd(s + b) == TrimEnd(s)
  {
    if b == "" {
      assert s + b == s;
    } else {
      var n := |b| - 1;
      assert (s + b)[..|s + b| - 1] == s + b[..n];
      TrimOfBlankLast(s, b[..n]);
    }
  }

  /** What stands between white space is what trimming leaves. */
  lemma {:induction false} TrimBetween(a: string, m: string, b: string)
    requires Blank(a) && Blank(b) && Tight(m)
    ensures Trim(a + m + b) == m
  {
    assert a + m + b == a + (m + b);
    TrimOfBlankFirst(a, m + b);
    if m == "" {
      assert m + b == b && b + "" == b;
      TrimOfBlankFirst(b, "");
    } else {
      assert TrimStart(m + b) == m + b;
      TrimOfBlankLast(m, b);
    }
  }

  /** The text is the word between white space. */
  ghost predicate Reads(text: string, word: string) {
    exists a, b :: Blank(a) && Blank(b) && text == a + word + b
  }

  /** Trimming a text gives a word without white space at its ends exactly when the text is that word
      between white space. */
  lemma {:induction false} TrimReads(text: string, word: string)
    requires Tight(word)
    ensures Trim(text) == word <==> Reads(text, word)
  {
    if Trim(text) == word {
      var a, b := TrimCuts(text);
    } else if Reads(text, word) {
      var a, b :| Blank(a) && Blank(b) && text == a + word + b;
      TrimBetween(a, word, b);
    }
  }

  lemma EnabledIsTight()
    ensures Tight("enabled")
  {
  }

  // ---- the texts ---------------------------------------------------------------------------------

  /** `Display` of a profile. */
  function Name(p: Profile): string {
    match p
    case Balanced => "balanced"
    case Interactive => "interactive"
    case Performance => "performance"
    case Background => "background"
  }

  function Digit(d: nat): char
    requires d < 10
  {
    '0' + d as char
  }

  function Num(n: nat): (s: string)
    ensures |s| >= 1 && forall i :: 0 <= i < |s| ==> '0' <= s[i] <= '9'
  {
    if n < 10 then [Digit(n)] else Num(n / 10) + [Digit(n % 10)]
  }

  predicate OccursAt(s: string, sub: string, i: nat) {
    i + |sub| <= |s| && s[i..i + |sub|] == sub
  }

  /** `str::contains`. */
  predicate Contains(s: string, sub: string) {
    exists i: nat :: i <= |s| && OccursAt(s, sub, i)
  }

  lemma ContainsMiddle(a: string, sub: string, b: string)
    ensures Contains(a + sub + b, sub)
  {
    assert OccursAt(a + sub + b, sub, |a|);
  }

  /** The characters `x` and `y` side by side. */
  predicate HasPair(s: string, x: char, y: char) {
    exists i :: 0 <= i < |s| - 1 && s[i] == x && s[i + 1] == y
  }

  lemma ContainsPair(s: string, sub: string, x: char, y: char)
    requires Contains(s, sub) && HasPair(sub, x, y)
    ensures HasPair(s, x, y)
  {
    var i: nat :| i <= |s| && OccursAt(s, sub, i);
    var j :| 0 <= j < |sub| - 1 && sub[j] == x && sub[j + 1] == y;
    assert s[i + j] == s[i..i + |sub|][j] && s[i + j + 1] == s[i..i + |sub|][j + 1];
  }

  lemma PairFree(a: string, b: string, x: char, y: char)
    requires !HasPair(a, x, y) && !HasPair(b, x, y)
    requires a == [] || b == [] || a[|a| - 1] != x || b[0] != y
    ensures !HasPair(a + b, x, y)
  {
    var s := a + b;
    forall i | 0 <= i < |s| - 1 ensures !(s[i] == x && s[i + 1] == y) {
      if i < |a| - 1 { assert s[i] == a[i] && s[i + 1] == a[i + 1]; }
      else if i >= |a| { assert s[i] == b[i - |a|] && s[i + 1] == b[i + 1 - |a|]; }
    }
  }

  /** The parts one after the other. */
  function Cat(parts: seq<string>): string {
    if parts == [] then "" else parts[0] + Cat(parts[1..])
  }

  lemma CatOne(part: string)
    ensures Cat([part]) == part
  {
    assert [part][1..] == [];
  }

  lemma {:induction false} CatGrow(parts: seq<string>, part: string)
    ensures Cat(parts + [part]) == Cat(parts) + part
  {
    if parts == [] {
      CatOne(part);
      assert [] + [part] == [part];
    } else {
      assert (parts + [part])[1..] == parts[1..] + [part];
      CatGrow(parts[1..], part);
    }
  }

  lemma {:induction false} ContainsPart(parts: seq<string>, i: nat)
    requires i < |parts|
    ensures Contains(Cat(parts), parts[i])
  {
    if i == 0 {
      assert "" + parts[0] + Cat(parts[1..]) == Cat(parts);
      ContainsMiddle("", parts[0], Cat(parts[1..]));
    } else {
      ContainsPart(parts[1..], i - 1);
      var rest := Cat(parts[1..]);
      var n: nat :| n <= |rest| && OccursAt(rest, parts[i], n);
      assert OccursAt(Cat(parts), parts[i], |parts[0]| + n);
    }
  }

  /** A part that neither holds the pair nor ends with its first character. */
  predicate Inert(s: string, x: char, y: char) {
    s != "" && !HasPair(s, x, y) && s[|s| - 1] != x
  }

  lemma {:induction false} InertCat(parts: seq<string>, x: char, y: char)
    requires forall i :: 0 <= i < |parts| ==> Inert(parts[i], x, y)
    ensures !HasPair(Cat(parts), x, y)
  {
    if parts != [] {
      InertCat(parts[1..], x, y);
      assert Inert(parts[0], x, y);
      PairFree(parts[0], Cat(parts[1..]), x, y);
    }
  }

  lemma NamesInert(p: Profile)
    ensures Inert(Name(p), 'o', 'o') && Inert(Name(p), 'c', 'u')
  {
  }

  lemma DigitsInert(n: nat)
    ensures Inert(Num(n), 'o', 'o') && Inert(Num(n), 'c', 'u')
  {
  }

  predicate Plain(s: string) {
    !HasPair(s, 'o', 'o') && !HasPair(s, 'c', 'u')
  }

  /** Words separated by single spaces. */
  function Sentence(words: seq<string>): string {
    if words == [] then "" else if |words| == 1 then words[0] else words[0] + " " + Sentence(words[1..])
  }

  /** Sentences are joined by one space. */
  lemma {:induction false} SentenceJoins(a: seq<string>, b: seq<string>)
    requires a != [] && b != []
    ensures Sentence(a + b) == Sentence(a) + " " + Sentence(b)
    ensures |a| == 1 ==> Sentence(a) == a[0]
  {
    if |a| > 1 {
      assert (a + b)[1..] == a[1..] + b;
      SentenceJoins(a[1..], b);
    }
  }

  /** The number a decimal text stands for. */
  function Value(s: string): int {
    if s == "" then 0 else 10 * Value(s[..|s| - 1]) + (s[|s| - 1] as int - '0' as int)
  }

  /** Numbers are written in decimal, without leading zeros. */
  lemma {:induction false} NumReadsBack(n: nat)
    ensures Value(Num(n)) == n
    ensures |Num(n)| > 1 ==> Num(n)[0] != '0'
  {
    if n >= 10 {
      NumReadsBack(n / 10);
      assert Num(n)[..|Num(n)| - 1] == Num(n / 10);
      if |Num(n / 10)| == 1 { assert Value(Num(n / 10)) == n / 10; }
    } else {
      assert Num(n) == [Digit(n)] && Num(n)[..0] == "";
    }
  }

  lemma {:induction false} PlainSentence(words: seq<string>)
    requires forall i :: 0 <= i < |words| ==> Plain(words[i])
    ensures Plain(Sentence(words))
  {
    if |words| >= 2 {
      PlainSentence(words[1..]);
      assert Plain(words[0]);
      PairFree(words[0], " ", 'o', 'o');
      PairFree(words[0], " ", 'c', 'u');
      PairFree(words[0] + " ", Sentence(words[1..]), 'o', 'o');
      PairFree(words[0] + " ", Sentence(words[1..]), 'c', 'u');
    }
  }

  const VERY_HIGH: seq<string> := ["Very", "high", "CPU", "utilisation", "with", "sustained", "runnable", "pressure"]
  const CHURN: seq<string> := ["High", "runnable", "load", "with", "frequent", "context", "switches",
                              "or", "short-lived", "process", "activity"]
  const VERY_LOW: seq<string> := ["Very", "low", "CPU", "utilisation", "and", "runnable", "pressure",
                                 "with", "minimal", "process", "activity"]
  const LOW: seq<string> := ["Low", "CPU", "utilisation", "and", "low", "runnable", "load"]
  const OTHER: seq<string> := ["Workload", "does", "not", "strongly", "match", "another", "profile"]
  const INVALID: seq<string> := ["Invalid", "telemetry;", "defaulting", "to", "balanced"]

  /** None of the fixed reasons contains a marker of a held recommendation. */
  lemma FixedReasonsPlain()
    ensures Plain(Sentence(VERY_HIGH)) && Plain(Sentence(CHURN)) && Plain(Sentence(VERY_LOW))
    ensures Plain(Sentence(LOW)) && Plain(Sentence(OTHER)) && Plain(Sentence(INVALID))
  {
    hide Plain, Sentence;
    WordsPlain1();
    WordsPlain2();
    WordsPlain3();
    PlainSentence(VERY_HIGH);
    PlainSentence(CHURN);
    PlainSentence(VERY_LOW);
    PlainSentence(LOW);
    PlainSentence(OTHER);
    PlainSentence(INVALID);
  }

  lemma WordsPlain1()
    ensures Plain("Very") && Plain("high") && Plain("CPU") && Plain("utilisation")
    ensures Plain("with") && Plain("sustained") && Plain("runnable") && Plain("pressure")
    ensures Plain("High") && Plain("load") && Plain("frequent")
  {
  }

  lemma WordsPlain2()
    ensures Plain("context") && Plain("switches") && Plain("or") && Plain("short-lived")
    ensures Plain("process") && Plain("activity") && Plain("low") && Plain("and")
    ensures Plain("minimal") && Plain("Low") && Plain("Workload")
  {
  }

  lemma WordsPlain3()
    ensures Plain("does") && Plain("not") && Plain("strongly") && Plain("match")
    ensures Plain("another") && Plain("profile") && Plain("Invalid") && Plain("telemetry;")
    ensures Plain("defaulting") && Plain("to") && Plain("balanced")
  {
  }
}
