/** Currencies and books of the exchange client: a book prints as major_minor and is read back by splitting. */
module Books {
  import opened Options

  type Currency = string

  datatype BookValue = BookValue(major: Currency, minor: Currency)

  const SEPARATOR := '_'

  /** A lower-casing of single letters: doing it twice changes nothing more, and only the separator becomes one. */
  ghost predicate Lowers(f: char -> char) {
    forall c :: f(f(c)) == f(c) && (f(c) == SEPARATOR <==> c == SEPARATOR)
  }

  /** The library's table of letters is a parameter. */
  type Lowering = f: char -> char | Lowers(f) witness (c: char) => c

  const ASCII: Lowering := (c: char) => if 'A' <= c <= 'Z' then c + 32 as char else c

  function ToLower(lower: Lowering, s: string): (t: string)
    ensures |t| == |s|
    ensures forall i | 0 <= i < |s| :: t[i] == lower(s[i])
  {
    if s == [] then [] else [lower(s[0])] + ToLower(lower, s[1..])
  }

  function ToCurrency(lower: Lowering, name: string): Currency {
    ToLower(lower, name)
  }

  predicate IsLower(lower: Lowering, s: string) {
    forall i | 0 <= i < |s| :: lower(s[i]) == s[i]
  }

  function Print(b: BookValue): string {
    b.major + [SEPARATOR] + b.minor
  }

  /** The pieces of a text between separators; always one more than there are separators. */
  function Split(s: string, sep: char): (pieces: seq<string>)
    ensures |pieces| > 0
  {
    if s == [] then [[]]
    else
      var rest := Split(s[1..], sep);
      if s[0] == sep then [[]] + rest else [[s[0]] + rest[0]] + rest[1..]
  }

  function Join(pieces: seq<string>, sep: char): string
    requires |pieces| > 0
  {
    if |pieces| == 1 then pieces[0] else pieces[0] + [sep] + Join(pieces[1..], sep)
  }

  function Count(s: string, sep: char): nat {
    if s == [] then 0 else (if s[0] == sep then 1 else 0) + Count(s[1..], sep)
  }

  function ParseBook(lower: Lowering, s: string): Option<BookValue> {
    var z := Split(s, SEPARATOR);
    if |z| != 2 then None else Some(BookValue(ToCurrency(lower, z[0]), ToCurrency(lower, z[1])))
  }

  /** The book as the client holds it: reading text assigns the receiver's fields. */
  class Book {
    var major: Currency
    var minor: Currency

    constructor (major: Currency, minor: Currency)
      ensures Value() == BookValue(major, minor)
    {
      this.major, this.minor := major, minor;
    }

    function Value(): BookValue
      reads this
    {
      BookValue(major, minor)
    }

    /** Refuses a text unless it has exactly one separator, and leaves the book alone when it refuses. */
    method FromString(lower: Lowering, s: string) returns (ok: bool)
      modifies this
      ensures ok <==> multiset(s)['_'] == 1
      ensures ok ==> major + "_" + minor == ToLower(lower, s) && ParseBook(lower, s) == Some(Value())
      ensures !ok ==> Value() == old(Value()) && ParseBook(lower, s) == None
    {
      var z := Split(s, SEPARATOR);
      SplitCounts(s, SEPARATOR);
      CountOccurrences(s, SEPARATOR);
      if |z| != 2 {
        return false;
      }
      major := ToCurrency(lower, z[0]);
      minor := ToCurrency(lower, z[1]);
      ParsePrints(lower, s);
      return true;
    }
  }

  lemma {:induction false} SplitCounts(s: string, sep: char)
    ensures |Split(s, sep)| == Count(s, sep) + 1
  {
    if s != [] { SplitCounts(s[1..], sep); }
  }

  lemma {:induction false} CountOccurrences(s: string, sep: char)
    ensures Count(s, sep) == multiset(s)[sep]
  {
    if s != [] {
      CountOccurrences(s[1..], sep);
      assert s == [s[0]] + s[1..];
    }
  }

  lemma {:induction false} JoinInvertsSplit(s: string, sep: char)
    ensures Join(Split(s, sep), sep) == s
  {
    if s != [] {
      var rest := Split(s[1..], sep);
      JoinInvertsSplit(s[1..], sep);
      assert s == [s[0]] + s[1..];
      if s[0] == sep {
        assert ([[]] + rest)[1..] == rest;
      } else {
        var all := [[s[0]] + rest[0]] + rest[1..];
        assert all[1..] == rest[1..];
        assert |rest| > 1 ==> Join(all, sep) == [s[0]] + (rest[0] + [sep] + Join(rest[1..], sep));
      }
    }
  }

  lemma {:induction false} CountOfConcat(s: string, t: string, sep: char)
    ensures Count(s + t, sep) == Count(s, sep) + Count(t, sep)
  {
    if s == [] {
      assert s + t == t;
    } else {
      assert (s + t)[1..] == s[1..] + t;
      CountOfConcat(s[1..], t, sep);
    }
  }

  lemma {:induction false} CountZero(s: string, sep: char)
    ensures Count(s, sep) == 0 <==> sep !in s
  {
    if s != [] {
      CountZero(s[1..], sep);
      assert s == [s[0]] + s[1..];
    }
  }

  lemma {:induction false} SplitAtSeparator(s: string, t: string, sep: char)
    requires sep !in s && sep !in t
    ensures Split(s + [sep] + t, sep) == [s, t]
  {
    if s == [] {
      assert s + [sep] + t == [sep] + t;
      assert ([sep] + t)[1..] == t;
      SplitWithout(t, sep);
    } else {
      var whole := s + [sep] + t;
      assert whole[1..] == s[1..] + [sep] + t;
      SplitAtSeparator(s[1..], t, sep);
      assert s == [s[0]] + s[1..];
    }
  }

  lemma {:induction false} SplitWithout(s: string, sep: char)
    requires sep !in s
    ensures Split(s, sep) == [s]
  {
    if s != [] {
      SplitWithout(s[1..], sep);
      assert s == [s[0]] + s[1..];
    }
  }

  lemma LowerFixed(lower: Lowering, s: string)
    ensures ToLower(lower, s) == s <==> IsLower(lower, s)
    ensures IsLower(lower, ToLower(lower, s))
  {
    if ToLower(lower, s) == s {
      forall i | 0 <= i < |s| ensures lower(s[i]) == s[i] { assert ToLower(lower, s)[i] == lower(s[i]); }
    }
  }

  /** Over the ASCII letters a text is lower case exactly if it has no capital. */
  lemma AsciiLower(s: string)
    ensures IsLower(ASCII, s) <==> forall i | 0 <= i < |s| :: !('A' <= s[i] <= 'Z')
    ensures forall i | 0 <= i < |s| :: ToLower(ASCII, s)[i] as int == s[i] as int + if 'A' <= s[i] <= 'Z' then 32 else 0
  {}

  lemma LowerJoins(lower: Lowering, s: string, a: string, b: string)
    requires s == a + [SEPARATOR] + b
    ensures ToLower(lower, s) == ToLower(lower, a) + [SEPARATOR] + ToLower(lower, b)
  {}

  /** What a text that parses prints as: itself in lower case. The text then has exactly one separator. */
  lemma ParsePrints(lower: Lowering, s: string)
    ensures ParseBook(lower, s).Some? <==> multiset(s)['_'] == 1
    ensures ParseBook(lower, s).Some? ==>
      var b := ParseBook(lower, s).value; Print(b) == b.major + "_" + b.minor == ToLower(lower, s)
  {
    var z := Split(s, SEPARATOR);
    CountOccurrences(s, SEPARATOR);
    SplitCounts(s, SEPARATOR);
    if |z| == 2 {
      JoinInvertsSplit(s, SEPARATOR);
      LowerJoins(lower, s, z[0], z[1]);
    }
  }

  /** A book survives printing and parsing exactly when both its currencies are lower case and free of separators. */
  lemma BookRoundTrip(lower: Lowering, b: BookValue)
    ensures ParseBook(lower, Print(b)) == Some(b)
       <==> IsLower(lower, b.major) && IsLower(lower, b.minor) && '_' !in b.major && '_' !in b.minor
  {
    LowerFixed(lower, b.major);
    LowerFixed(lower, b.minor);
    CountZero(b.major, SEPARATOR);
    CountZero(b.minor, SEPARATOR);
    CountOfConcat(b.major + [SEPARATOR], b.minor, SEPARATOR);
    CountOfConcat(b.major, [SEPARATOR], SEPARATOR);
    ParsePrints(lower, Print(b));
    if SEPARATOR !in b.major && SEPARATOR !in b.minor {
      SplitAtSeparator(b.major, b.minor, SEPARATOR);
    }
  }

  /** Parsing, printing and parsing again gives what the first parse gave, for every text. */
  lemma ParsePrintParse(lower: Lowering, s: string)
    requires ParseBook(lower, s).Some?
    ensures ParseBook(lower, Print(ParseBook(lower, s).value)) == ParseBook(lower, s)
  {
    var z := Split(s, SEPARATOR);
    SplitCounts(s, SEPARATOR);
    JoinInvertsSplit(s, SEPARATOR);
    assert s == z[0] + [SEPARATOR] + z[1];
    CountOfConcat(z[0] + [SEPARATOR], z[1], SEPARATOR);
    CountOfConcat(z[0], [SEPARATOR], SEPARATOR);
    CountZero(z[0], SEPARATOR);
    CountZero(z[1], SEPARATOR);
    var b := ParseBook(lower, s).value;
    LowerFixed(lower, z[0]);
    LowerFixed(lower, z[1]);
    forall i | 0 <= i < |z[0]| ensures b.major[i] != SEPARATOR { assert z[0][i] in z[0]; }
    forall i | 0 <= i < |z[1]| ensures b.minor[i] != SEPARATOR { assert z[1][i] in z[1]; }
    BookRoundTrip(lower, b);
  }
}
