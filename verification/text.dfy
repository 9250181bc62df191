/** The handful of java.lang.String operations the services rely on, over `seq<char>`.
    Case conversion is restricted to ASCII letters. Strings are ordered two ways: by code point
    (Firestore's order) and by UTF-16 code unit (`String.compareTo`). */
module Text {

  /** `Character.toLowerCase` on ASCII letters; every other character is unchanged. */
  function LowerChar(c: char): char
  {
    if 'A' <= c <= 'Z' then (c as int + 32) as char else c
  }

  /** `String.toLowerCase()`, letter by letter. */
  function ToLower(s: string): (r: string)
    ensures |r| == |s|
    ensures forall i :: 0 <= i < |s| ==> r[i] == LowerChar(s[i])
  {
    if s == [] then [] else [LowerChar(s[0])] + ToLower(s[1..])
  }

  /** `hay.contains(needle)`: needle occurs in hay at some offset. */
  predicate Contains(hay: string, needle: string)
    decreases |hay|
  {
    needle <= hay || (hay != [] && Contains(hay[1..], needle))
  }

  /** needle occurs in hay starting at offset i. */
  predicate OccursAt(hay: string, needle: string, i: int)
  {
    0 <= i && i + |needle| <= |hay| && hay[i..i + |needle|] == needle
  }

  /** Contains agrees with the definition by offset: needle occurs at some position of hay. */
  lemma {:induction false} ContainsIffOccurs(hay: string, needle: string)
    ensures Contains(hay, needle) <==> exists i :: OccursAt(hay, needle, i)
    decreases |hay|
  {
    if needle <= hay {
      assert OccursAt(hay, needle, 0);
    } else if hay == [] {
    } else {
      ContainsIffOccurs(hay[1..], needle);
      if Contains(hay[1..], needle) {
        var i :| OccursAt(hay[1..], needle, i);
        OccursInTail(hay, needle, i + 1);
      }
      if exists i :: OccursAt(hay, needle, i) {
        var i :| OccursAt(hay, needle, i);
        OccursInTail(hay, needle, i);
      }
    }
  }

  /** An occurrence past the first character is an occurrence in the tail, one place earlier. */
  lemma OccursInTail(hay: string, needle: string, i: int)
    requires hay != [] && i >= 1
    ensures OccursAt(hay, needle, i) <==> OccursAt(hay[1..], needle, i - 1)
  {
    if i + |needle| <= |hay| {
      assert hay[1..][i - 1..i - 1 + |needle|] == hay[i..i + |needle|];
    }
  }

  // ---- Orders on strings ----

  /** Lexicographic order on sequences of code values, a proper prefix first. */
  predicate UnitsLe(a: seq<int>, b: seq<int>)
    decreases |a|
  {
    if a == [] then true
    else if b == [] then false
    else if a[0] != b[0] then a[0] < b[0]
    else UnitsLe(a[1..], b[1..])
  }

  lemma {:induction false} UnitsLeTotal(a: seq<int>, b: seq<int>)
    ensures UnitsLe(a, b) || UnitsLe(b, a)
    decreases |a|
  {
    if a != [] && b != [] && a[0] == b[0] {
      UnitsLeTotal(a[1..], b[1..]);
    }
  }

  lemma {:induction false} UnitsLeAntisymmetric(a: seq<int>, b: seq<int>)
    requires UnitsLe(a, b) && UnitsLe(b, a)
    ensures a == b
    decreases |a|
  {
    if a != [] {
      UnitsLeAntisymmetric(a[1..], b[1..]);
      assert a == [a[0]] + a[1..] && b == [b[0]] + b[1..];
    }
  }

  lemma {:induction false} UnitsLeTransitive(a: seq<int>, b: seq<int>, c: seq<int>)
    requires UnitsLe(a, b) && UnitsLe(b, c)
    ensures UnitsLe(a, c)
    decreases |a|
  {
    if a != [] && b != [] && c != [] && a[0] == b[0] && b[0] == c[0] {
      UnitsLeTransitive(a[1..], b[1..], c[1..]);
    }
  }

  /** The Unicode code points of a string. */
  function CodePoints(s: string): (p: seq<int>)
    ensures |p| == |s| && forall i :: 0 <= i < |s| ==> p[i] == s[i] as int
  {
    seq(|s|, i requires 0 <= i < |s| => s[i] as int)
  }

  /** Code-point order: a string sorts before another by its first differing character, a
      proper prefix first. This is also the order of the strings' UTF-8 bytes, which is how
      Firestore orders string fields and document ids. */
  predicate LexLe(a: string, b: string)
  {
    UnitsLe(CodePoints(a), CodePoints(b))
  }

  lemma LexLeTotal(a: string, b: string)
    ensures LexLe(a, b) || LexLe(b, a)
  {
    UnitsLeTotal(CodePoints(a), CodePoints(b));
  }

  lemma LexLeAntisymmetric(a: string, b: string)
    requires LexLe(a, b) && LexLe(b, a)
    ensures a == b
  {
    UnitsLeAntisymmetric(CodePoints(a), CodePoints(b));
    assert forall i :: 0 <= i < |a| ==> a[i] as int == CodePoints(a)[i] == CodePoints(b)[i] == b[i] as int;
  }

  lemma LexLeTransitive(a: string, b: string, c: string)
    requires LexLe(a, b) && LexLe(b, c)
    ensures LexLe(a, c)
  {
    UnitsLeTransitive(CodePoints(a), CodePoints(b), CodePoints(c));
  }

  lemma LexLeReflexive(a: string)
    ensures LexLe(a, a)
  {
    LexLeTotal(a, a);
  }

  /** The UTF-16 code units of one character: the character itself in the Basic Multilingual
      Plane, a high and a low surrogate above it. */
  function CodeUnits(c: char): (u: seq<int>)
    ensures |u| == (if c as int < 0x10000 then 1 else 2)
    ensures c as int < 0x10000 ==> u[0] == c as int && !(0xD800 <= u[0] < 0xE000)
    ensures c as int >= 0x10000 ==> 0xD800 <= u[0] < 0xDC00 && 0xDC00 <= u[1] < 0xE000
  {
    var v := c as int;
    if v < 0x10000 then [v]
    else [0xD800 + (v - 0x10000) / 0x400, 0xDC00 + (v - 0x10000) % 0x400]
  }

  /** The UTF-16 code units of a string: what a Java `String` holds. */
  function Utf16(s: string): seq<int>
  {
    if s == [] then [] else CodeUnits(s[0]) + Utf16(s[1..])
  }

  /** `a.compareTo(b) <= 0`: Java compares strings by their UTF-16 code units. */
  predicate JavaLe(a: string, b: string)
  {
    UnitsLe(Utf16(a), Utf16(b))
  }

  /** A character is determined by its code units. */
  lemma CodeUnitsInjective(c: char, d: char)
    requires CodeUnits(c) == CodeUnits(d)
    ensures c == d
  {
    if c as int >= 0x10000 {
      var v, w := c as int - 0x10000, d as int - 0x10000;
      assert v == 0x400 * (v / 0x400) + v % 0x400;
      assert w == 0x400 * (w / 0x400) + w % 0x400;
    }
  }

  /** Different strings have different UTF-16 encodings. */
  lemma {:induction false} Utf16Injective(a: string, b: string)
    requires Utf16(a) == Utf16(b)
    ensures a == b
    decreases |a|
  {
    if a != [] && b != [] {
      var ua, ub := CodeUnits(a[0]), CodeUnits(b[0]);
      assert Utf16(a) == ua + Utf16(a[1..]) && Utf16(b) == ub + Utf16(b[1..]);
      assert Utf16(a)[0] == ua[0] && Utf16(b)[0] == ub[0];
      assert |ua| == |ub|;
      assert ua == Utf16(a)[..|ua|] == Utf16(b)[..|ub|] == ub;
      CodeUnitsInjective(a[0], b[0]);
      assert Utf16(a[1..]) == Utf16(a)[|ua|..] == Utf16(b)[|ub|..] == Utf16(b[1..]);
      Utf16Injective(a[1..], b[1..]);
      assert a == [a[0]] + a[1..] && b == [b[0]] + b[1..];
    }
  }

  lemma JavaLeTotal(a: string, b: string)
    ensures JavaLe(a, b) || JavaLe(b, a)
  {
    UnitsLeTotal(Utf16(a), Utf16(b));
  }

  lemma JavaLeAntisymmetric(a: string, b: string)
    requires JavaLe(a, b) && JavaLe(b, a)
    ensures a == b
  {
    UnitsLeAntisymmetric(Utf16(a), Utf16(b));
    Utf16Injective(a, b);
  }

  lemma JavaLeTransitive(a: string, b: string, c: string)
    requires JavaLe(a, b) && JavaLe(b, c)
    ensures JavaLe(a, c)
  {
    UnitsLeTransitive(Utf16(a), Utf16(b), Utf16(c));
  }

  /** In the Basic Multilingual Plane a string's code units are its code points. */
  lemma {:induction false} Utf16OfBmp(s: string)
    requires forall i :: 0 <= i < |s| ==> s[i] as int < 0x10000
    ensures Utf16(s) == CodePoints(s)
    decreases |s|
  {
    if s != [] {
      Utf16OfBmp(s[1..]);
      assert CodePoints(s) == [s[0] as int] + CodePoints(s[1..]);
    }
  }

  /** On strings of the Basic Multilingual Plane, `compareTo` is code-point order. */
  lemma JavaLeOfBmp(a: string, b: string)
    requires forall i :: 0 <= i < |a| ==> a[i] as int < 0x10000
    requires forall i :: 0 <= i < |b| ==> b[i] as int < 0x10000
    ensures JavaLe(a, b) == LexLe(a, b)
  {
    Utf16OfBmp(a);
    Utf16OfBmp(b);
  }

  /** Above the Basic Multilingual Plane the two orders part: U+10000 is written with the high
      surrogate 0xD800, which `compareTo` puts before U+FFFF, while its code point is larger. */
  lemma JavaLeDiffersAboveBmp()
    ensures JavaLe("\U{10000}", "\U{FFFF}") && !LexLe("\U{10000}", "\U{FFFF}")
  {
    assert Utf16("\U{10000}") == [0xD800, 0xDC00] by {
      assert "\U{10000}"[1..] == [];
    }
    assert Utf16("\U{FFFF}") == [0xFFFF] by {
      assert "\U{FFFF}"[1..] == [];
    }
  }

  /** The characters `String.trim()` removes from both ends. */
  predicate IsTrimmed(c: char)
  {
    c <= ' '
  }

  function TrimStart(s: string): string
  {
    if s != [] && IsTrimmed(s[0]) then TrimStart(s[1..]) else s
  }

  function TrimEnd(s: string): string
  {
    if s != [] && IsTrimmed(s[|s| - 1]) then TrimEnd(s[..|s| - 1]) else s
  }

  /** `String.trim()` */
  function Trim(s: string): string
  {
    TrimEnd(TrimStart(s))
  }

  /** `s.trim().isEmpty()` */
  predicate IsBlank(s: string)
  {
    Trim(s) == ""
  }

  lemma {:induction false} TrimStartEmptyIff(s: string)
    ensures TrimStart(s) == "" <==> forall i :: 0 <= i < |s| ==> IsTrimmed(s[i])
  {
    if s != [] && IsTrimmed(s[0]) {
      TrimStartEmptyIff(s[1..]);
      assert forall i :: 1 <= i < |s| ==> s[i] == s[1..][i - 1];
    }
  }

  lemma {:induction false} TrimEndOfNonBlankStart(s: string)
    requires s != [] && !IsTrimmed(s[0])
    ensures TrimEnd(s) != ""
  {
    if IsTrimmed(s[|s| - 1]) {
      TrimEndOfNonBlankStart(s[..|s| - 1]);
    }
  }

  /** A string is blank exactly when every character of it is one that trim removes. */
  lemma BlankIffAllTrimmed(s: string)
    ensures IsBlank(s) <==> forall i :: 0 <= i < |s| ==> IsTrimmed(s[i])
  {
    TrimStartEmptyIff(s);
    var t := TrimStart(s);
    if t != "" {
      TrimStartKeepsFirst(s);
      TrimEndOfNonBlankStart(t);
    }
  }

  lemma {:induction false} TrimStartKeepsFirst(s: string)
    requires TrimStart(s) != ""
    ensures !IsTrimmed(TrimStart(s)[0])
  {
    if s != [] && IsTrimmed(s[0]) {
      TrimStartKeepsFirst(s[1..]);
    }
  }

  /** `s.lastIndexOf(c)`: the last position holding c, or -1. */
  function LastIndexOf(s: string, c: char): (r: int)
    ensures -1 <= r < |s|
    ensures r == -1 <==> c !in s
    ensures r >= 0 ==> s[r] == c && forall j :: r < j < |s| ==> s[j] != c
    decreases |s|
  {
    if s == [] then -1
    else if s[|s| - 1] == c then |s| - 1
    else LastIndexOf(s[..|s| - 1], c)
  }

  /** Every piece of s between occurrences of c, including empty ones, in order. */
  function SplitAll(s: string, c: char): (r: seq<string>)
    ensures |r| >= 1
    decreases |s|
  {
    if c !in s then [s]
    else
      var i := LastIndexOf(s, c);
      SplitAll(s[..i], c) + [s[i + 1..]]
  }

  /** Removes the trailing empty strings of a split, as `String.split` does. */
  function DropTrailingEmpty(parts: seq<string>): seq<string>
  {
    if parts != [] && parts[|parts| - 1] == "" then DropTrailingEmpty(parts[..|parts| - 1]) else parts
  }

  /** `s.split(c)` for a separator that is not a regular-expression metacharacter: the whole
      string when c does not occur in it, otherwise the pieces without the trailing empty ones. */
  function JavaSplit(s: string, c: char): seq<string>
  {
    if c !in s then [s] else DropTrailingEmpty(SplitAll(s, c))
  }

  /** s without its trailing run of c. */
  function StripTrailing(s: string, c: char): (r: string)
    ensures r <= s
    ensures r == [] || r[|r| - 1] != c
  {
    if s != [] && s[|s| - 1] == c then StripTrailing(s[..|s| - 1], c) else s
  }

  /** The part of s after its last c (all of s when c does not occur). */
  function AfterLast(s: string, c: char): (r: string)
    ensures c !in r
  {
    s[LastIndexOf(s, c) + 1..]
  }
}
