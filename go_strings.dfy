/**
 * The parts of Go's strings package and of its UTF-8 string representation
 * that the evaluation service relies on: strings.TrimSpace (with the
 * white-space set of unicode.IsSpace), strings.Split and strings.Join with
 * a one-character separator, strings.ReplaceAll with an empty replacement,
 * and len() of a string, which counts UTF-8 bytes.
 *
 * A Go string here is the sequence of Unicode scalar values it encodes
 * (Dafny's `string`); the encoder gives the bytes back where byte counts
 * or byte slicing matter.
 */
module GoStrings {

  newtype byte = x: int | 0 <= x < 256

  /** unicode.IsSpace, which strings.TrimSpace uses. */
  predicate IsSpace(c: char)
  {
    c == ' ' || c == '\t' || c == '\n' || c == '\r' || c == '\U{000B}' || c == '\U{000C}' ||
    c == '\U{0085}' || c == '\U{00A0}' || c == '\U{1680}' ||
    ('\U{2000}' <= c <= '\U{200A}') || c == '\U{2028}' || c == '\U{2029}' ||
    c == '\U{202F}' || c == '\U{205F}' || c == '\U{3000}'
  }

  predicate AllSpace(s: string)
  {
    forall i :: 0 <= i < |s| ==> IsSpace(s[i])
  }

  /** Neither end of s is white space (the empty string qualifies). */
  predicate Trimmed(s: string)
  {
    s == [] || (!IsSpace(s[0]) && !IsSpace(s[|s| - 1]))
  }

  /** strings.TrimSpace: drop leading and trailing white space. */
  function TrimSpace(s: string): (r: string)
    ensures Trimmed(r)
    ensures |r| <= |s|
    decreases |s|
  {
    if s != [] && IsSpace(s[0]) then TrimSpace(s[1..])
    else if s != [] && IsSpace(s[|s| - 1]) then TrimSpace(s[..|s| - 1])
    else s
  }

  /** r is s[a..a + |r|], and s holds only white space before and after it. */
  predicate CutFrom(s: string, r: string, a: nat)
  {
    && a + |r| <= |s| && r == s[a..a + |r|]
    && (forall i :: 0 <= i < a ==> IsSpace(s[i]))
    && (forall i :: a + |r| <= i < |s| ==> IsSpace(s[i]))
  }

  /** TrimSpace cuts its result out of s at some offset, and drops only white space on either side. */
  lemma {:induction false} TrimSpaceShape(s: string) returns (a: nat)
    ensures CutFrom(s, TrimSpace(s), a)
    decreases |s|, 1
  {
    if s != [] && IsSpace(s[0]) {
      a := DropFirstShape(s);
    } else if s != [] && IsSpace(s[|s| - 1]) {
      a := DropLastShape(s);
    } else {
      a := 0;
    }
  }

  lemma {:induction false} DropFirstShape(s: string) returns (a: nat)
    requires s != [] && IsSpace(s[0])
    ensures CutFrom(s, TrimSpace(s), a)
    decreases |s|, 0
  {
    var t := s[1..];
    var a' := TrimSpaceShape(t);
    a := a' + 1;
    assert forall i :: 0 <= i < |t| ==> t[i] == s[i + 1];
    assert t[a'..a' + |TrimSpace(t)|] == s[a..a + |TrimSpace(t)|];
  }

  lemma {:induction false} DropLastShape(s: string) returns (a: nat)
    requires s != [] && !IsSpace(s[0]) && IsSpace(s[|s| - 1])
    ensures CutFrom(s, TrimSpace(s), a)
    decreases |s|, 0
  {
    var t := s[..|s| - 1];
    a := TrimSpaceShape(t);
    assert forall i :: 0 <= i < |t| ==> t[i] == s[i];
    assert t[a..a + |TrimSpace(t)|] == s[a..a + |TrimSpace(t)|];
  }

  /** Trimming is the identity exactly on trimmed strings. */
  lemma TrimSpaceFixed(s: string)
    ensures TrimSpace(s) == s <==> Trimmed(s)
  {
  }

  /** Trimming gives "" exactly for all-white-space input. */
  lemma TrimSpaceEmpty(s: string)
    ensures TrimSpace(s) == [] <==> AllSpace(s)
  {
    var a := TrimSpaceShape(s);
  }

  /** Trimming does not see a leading white-space character. */
  lemma TrimSpaceCons(c: char, s: string)
    requires IsSpace(c)
    ensures TrimSpace([c] + s) == TrimSpace(s)
  {
    assert ([c] + s)[1..] == s;
  }

  /** Trimming does not see a trailing white-space character. */
  lemma {:induction false} TrimSpaceSnoc(s: string, c: char)
    requires IsSpace(c)
    ensures TrimSpace(s + [c]) == TrimSpace(s)
    decreases |s|
  {
    if s == [] {
      assert TrimSpace([c]) == TrimSpace([c][1..]);
    } else if IsSpace(s[0]) {
      assert (s + [c])[1..] == s[1..] + [c];
      TrimSpaceSnoc(s[1..], c);
    } else {
      assert (s + [c])[..|s|] == s;
    }
  }

  /** strings.Split(s, string(sep)): the pieces between separators; there is always one more piece than separators. */
  function Split(s: string, sep: char): (r: seq<string>)
    ensures |r| >= 1
    ensures forall i :: 0 <= i < |r| ==> sep !in r[i]
    decreases |s|
  {
    if s == [] then [[]]
    else
      var rest := Split(s[1..], sep);
      if s[0] == sep then [[]] + rest else [[s[0]] + rest[0]] + rest[1..]
  }

  /** strings.Join(parts, sep) */
  function Join(parts: seq<string>, sep: string): string
  {
    if |parts| == 0 then []
    else if |parts| == 1 then parts[0]
    else parts[0] + sep + Join(parts[1..], sep)
  }

  /** Joining with one more part appends the separator and the part. */
  lemma {:induction false} JoinSnoc(parts: seq<string>, x: string, sep: string)
    ensures Join(parts + [x], sep) == if parts == [] then x else Join(parts, sep) + sep + x
  {
    if |parts| > 1 {
      assert (parts + [x])[1..] == parts[1..] + [x];
      JoinSnoc(parts[1..], x, sep);
    } else if |parts| == 1 {
      assert (parts + [x])[1..] == [x];
    }
  }

  /** Joining the pieces of a split gives back the string. */
  lemma {:induction false} JoinSplit(s: string, sep: char)
    ensures Join(Split(s, sep), [sep]) == s
  {
    if s != [] {
      JoinSplit(s[1..], sep);
      var rest := Split(s[1..], sep);
      if s[0] != sep && |rest| > 1 {
        assert ([[s[0]] + rest[0]] + rest[1..])[1..] == rest[1..];
      }
    }
  }

  /** A string without the separator splits into itself. */
  lemma {:induction false} SplitNoSep(s: string, sep: char)
    requires sep !in s
    ensures Split(s, sep) == [s]
  {
    if s != [] {
      SplitNoSep(s[1..], sep);
      assert [s[0]] + s[1..] == s;
    }
  }

  /** Splitting a separator-free piece followed by the separator. */
  lemma {:induction false} SplitAfterPiece(a: string, sep: char, b: string)
    requires sep !in a
    ensures Split(a + [sep] + b, sep) == [a] + Split(b, sep)
  {
    if a == [] {
      assert a + [sep] + b == [sep] + b;
      assert ([sep] + b)[1..] == b;
    } else {
      assert (a + [sep] + b)[1..] == a[1..] + [sep] + b;
      SplitAfterPiece(a[1..], sep, b);
      assert [a[0]] + a[1..] == a;
    }
  }

  /** Splitting what was joined gives back the parts, when no part holds the separator. */
  lemma {:induction false} SplitJoin(parts: seq<string>, sep: char)
    requires |parts| >= 1
    requires forall i :: 0 <= i < |parts| ==> sep !in parts[i]
    ensures Split(Join(parts, [sep]), sep) == parts
  {
    if |parts| == 1 {
      SplitNoSep(parts[0], sep);
    } else {
      SplitJoin(parts[1..], sep);
      SplitAfterPiece(parts[0], sep, Join(parts[1..], [sep]));
      assert [parts[0]] + parts[1..] == parts;
    }
  }

  /** Trim each piece and keep the non-empty ones, in order (the loops of cleanText and splitIntoSentences). */
  function TrimmedNonBlank(pieces: seq<string>): (r: seq<string>)
    ensures |r| <= |pieces|
    ensures forall i :: 0 <= i < |r| ==> r[i] != [] && Trimmed(r[i])
  {
    if pieces == [] then []
    else
      var t := TrimSpace(pieces[0]);
      (if t == [] then [] else [t]) + TrimmedNonBlank(pieces[1..])
  }

  lemma {:induction false} TrimmedNonBlankAppend(a: seq<string>, b: seq<string>)
    ensures TrimmedNonBlank(a + b) == TrimmedNonBlank(a) + TrimmedNonBlank(b)
  {
    if a != [] {
      assert (a + b)[0] == a[0];
      assert (a + b)[1..] == a[1..] + b;
      TrimmedNonBlankAppend(a[1..], b);
      var t := TrimSpace(a[0]);
      var head := if t == [] then [] else [t];
      calc {
        TrimmedNonBlank(a + b);
        head + TrimmedNonBlank(a[1..] + b);
        head + (TrimmedNonBlank(a[1..]) + TrimmedNonBlank(b));
        (head + TrimmedNonBlank(a[1..])) + TrimmedNonBlank(b);
      }
    } else {
      assert a + b == b;
    }
  }

  /** One more piece: kept, trimmed, at the end when it is not blank. */
  lemma TrimmedNonBlankSnoc(pieces: seq<string>, x: string)
    ensures TrimmedNonBlank(pieces + [x]) ==
            TrimmedNonBlank(pieces) + (if TrimSpace(x) == [] then [] else [TrimSpace(x)])
  {
    TrimmedNonBlankAppend(pieces, [x]);
    assert [x][1..] == [];
  }

  /** Pieces that are already trimmed and non-empty pass through unchanged. */
  lemma {:induction false} TrimmedNonBlankFixed(pieces: seq<string>)
    requires forall i :: 0 <= i < |pieces| ==> pieces[i] != [] && Trimmed(pieces[i])
    ensures TrimmedNonBlank(pieces) == pieces
  {
    if pieces != [] {
      TrimSpaceFixed(pieces[0]);
      TrimmedNonBlankFixed(pieces[1..]);
    }
  }

  /** A join of trimmed, non-empty parts is trimmed and non-empty. */
  lemma {:induction false} JoinTrimmed(parts: seq<string>, sep: string)
    requires |parts| >= 1
    requires forall i :: 0 <= i < |parts| ==> parts[i] != [] && Trimmed(parts[i])
    ensures var j := Join(parts, sep);
            j != [] && Trimmed(j) &&
            j[0] == parts[0][0] && j[|j| - 1] == parts[|parts| - 1][|parts[|parts| - 1]| - 1]
  {
    if |parts| > 1 {
      var tail := parts[1..];
      assert forall i :: 0 <= i < |tail| ==> tail[i] == parts[i + 1];
      JoinTrimmed(tail, sep);
      var jt := Join(tail, sep);
      var j := parts[0] + sep + jt;
      assert Join(parts, sep) == j;
      assert j[0] == parts[0][0];
      assert j[|j| - 1] == jt[|jt| - 1];
      assert tail[|tail| - 1] == parts[|parts| - 1];
    }
  }

  /** Trimming cannot bring in a character that was not there. */
  lemma TrimSpaceKeepsOut(s: string, c: char)
    requires c !in s
    ensures c !in TrimSpace(s)
  {
    var a := TrimSpaceShape(s);
    assert forall i :: 0 <= i < |TrimSpace(s)| ==> TrimSpace(s)[i] == s[a + i];
  }

  /** Nor can trimming and dropping pieces. */
  lemma {:induction false} TrimmedNonBlankKeepsOut(pieces: seq<string>, c: char)
    requires forall i :: 0 <= i < |pieces| ==> c !in pieces[i]
    ensures forall i :: 0 <= i < |TrimmedNonBlank(pieces)| ==> c !in TrimmedNonBlank(pieces)[i]
  {
    if pieces != [] {
      TrimSpaceKeepsOut(pieces[0], c);
      TrimmedNonBlankKeepsOut(pieces[1..], c);
    }
  }

  /** Everything is dropped exactly when every piece is white space. */
  lemma {:induction false} TrimmedNonBlankEmpty(pieces: seq<string>)
    ensures TrimmedNonBlank(pieces) == [] <==> forall i :: 0 <= i < |pieces| ==> AllSpace(pieces[i])
  {
    if pieces != [] {
      TrimSpaceEmpty(pieces[0]);
      TrimmedNonBlankEmpty(pieces[1..]);
      assert forall i :: 1 <= i < |pieces| ==> pieces[i] == pieces[1..][i - 1];
    }
  }

  /** White-space parts joined by a white-space separator give white space. */
  lemma {:induction false} JoinAllSpace(parts: seq<string>, sep: string)
    requires AllSpace(sep)
    requires forall i :: 0 <= i < |parts| ==> AllSpace(parts[i])
    ensures AllSpace(Join(parts, sep))
  {
    if |parts| > 1 {
      JoinAllSpace(parts[1..], sep);
      var j := parts[0] + sep + Join(parts[1..], sep);
      assert forall i :: 0 <= i < |j| ==>
        j[i] == if i < |parts[0]| then parts[0][i]
                else if i < |parts[0]| + |sep| then sep[i - |parts[0]|]
                else Join(parts[1..], sep)[i - |parts[0]| - |sep|];
    }
  }

  /** Whether pat occurs in s. */
  predicate Occurs(s: string, pat: string)
    decreases |s|
  {
    |s| >= |pat| && (s[..|pat|] == pat || (s != [] && Occurs(s[1..], pat)))
  }

  /** strings.ReplaceAll(s, pat, ""): left to right, non-overlapping. */
  function RemoveAll(s: string, pat: string): string
    requires pat != []
    decreases |s|
  {
    if |s| < |pat| then s
    else if s[..|pat|] == pat then RemoveAll(s[|pat|..], pat)
    else [s[0]] + RemoveAll(s[1..], pat)
  }

  /** Removing a pattern that does not occur changes nothing. */
  lemma {:induction false} RemoveAllAbsent(s: string, pat: string)
    requires pat != [] && !Occurs(s, pat)
    ensures RemoveAll(s, pat) == s
    decreases |s|
  {
    if |s| >= |pat| {
      RemoveAllAbsent(s[1..], pat);
      assert [s[0]] + s[1..] == s;
    }
  }

  /** A pattern cannot occur in a string that lacks its first character. */
  lemma {:induction false} OccursNeedsFirst(s: string, pat: string)
    requires pat != [] && pat[0] !in s
    ensures !Occurs(s, pat)
    decreases |s|
  {
    if |s| >= |pat| {
      assert s[..|pat|][0] == s[0];
      OccursNeedsFirst(s[1..], pat);
    }
  }

  /** An occurrence of a pattern is an occurrence of each of its prefixes. */
  lemma {:induction false} OccursPrefixPattern(s: string, pat: string, pre: string)
    requires pre <= pat && Occurs(s, pat)
    ensures Occurs(s, pre)
    decreases |s|
  {
    if s[..|pat|] == pat {
      assert s[..|pre|] == pat[..|pre|];
    } else {
      OccursPrefixPattern(s[1..], pat, pre);
    }
  }

  /** Dropping the last character cannot create an occurrence. */
  lemma {:induction false} NoOccursDropLast(s: string, pat: string)
    requires s != [] && !Occurs(s, pat)
    ensures !Occurs(s[..|s| - 1], pat)
    decreases |s|
  {
    var t := s[..|s| - 1];
    if |t| >= |pat| {
      assert t[..|pat|] == s[..|pat|];
      if t != [] {
        assert t[1..] == s[1..][..|s[1..]| - 1];
        NoOccursDropLast(s[1..], pat);
      }
    }
  }

  /** Trimming cannot create an occurrence. */
  lemma {:induction false} NoOccursTrim(s: string, pat: string)
    requires !Occurs(s, pat)
    ensures !Occurs(TrimSpace(s), pat)
    decreases |s|
  {
    if s != [] && IsSpace(s[0]) {
      NoOccursTrim(s[1..], pat);
    } else if s != [] && IsSpace(s[|s| - 1]) {
      NoOccursDropLast(s, pat);
      NoOccursTrim(s[..|s| - 1], pat);
    }
  }

  /** A string that does not start like the pattern keeps its first character. */
  lemma RemoveAllKeepsHead(s: string, pat: string)
    requires pat != [] && s != [] && s[0] != pat[0]
    ensures RemoveAll(s, pat) == [s[0]] + RemoveAll(s[1..], pat)
  {
    if |s| < |pat| {
      assert [s[0]] + s[1..] == s;
    } else {
      assert s[..|pat|][0] == s[0];
    }
  }

  /** The UTF-8 encoding of one Unicode scalar value: 1 to 4 bytes. */
  function EncodeRune(c: char): (r: seq<byte>)
    ensures 1 <= |r| <= 4
    ensures |r| == 1 <==> (c as int) < 0x80
  {
    var v := c as int;
    if v < 0x80 then [v as byte]
    else if v < 0x800 then [(0xC0 + v / 64) as byte, (0x80 + v % 64) as byte]
    else if v < 0x10000 then [(0xE0 + v / 4096) as byte, (0x80 + (v / 64) % 64) as byte, (0x80 + v % 64) as byte]
    else [(0xF0 + v / 262144) as byte, (0x80 + (v / 4096) % 64) as byte, (0x80 + (v / 64) % 64) as byte, (0x80 + v % 64) as byte]
  }

  /** The bytes of a Go string. */
  function Encode(s: string): (r: seq<byte>)
    ensures |s| <= |r| <= 4 * |s|
  {
    if s == [] then [] else EncodeRune(s[0]) + Encode(s[1..])
  }

  /** The number of bytes of a rune's UTF-8 encoding. */
  function RuneLen(c: char): (n: nat)
    ensures n == |EncodeRune(c)|
  {
    if (c as int) < 0x80 then 1 else if (c as int) < 0x800 then 2 else if (c as int) < 0x10000 then 3 else 4
  }

  /** len(s) in Go: the number of UTF-8 bytes. */
  function ByteLen(s: string): nat
  {
    if s == [] then 0 else RuneLen(s[0]) + ByteLen(s[1..])
  }

  /** ByteLen counts the bytes Encode produces. */
  lemma {:induction false} ByteLenEncode(s: string)
    ensures ByteLen(s) == |Encode(s)|
  {
    if s != [] {
      ByteLenEncode(s[1..]);
    }
  }

  lemma {:induction false} EncodeAppend(a: string, b: string)
    ensures Encode(a + b) == Encode(a) + Encode(b)
  {
    if a != [] {
      assert (a + b)[0] == a[0];
      assert (a + b)[1..] == a[1..] + b;
      EncodeAppend(a[1..], b);
      calc {
        Encode(a + b);
        EncodeRune(a[0]) + Encode(a[1..] + b);
        EncodeRune(a[0]) + (Encode(a[1..]) + Encode(b));
        (EncodeRune(a[0]) + Encode(a[1..])) + Encode(b);
      }
    } else {
      assert a + b == b;
    }
  }

  /** The byte length of a concatenation is the sum of the byte lengths. */
  lemma ByteLenAppend(a: string, b: string)
    ensures ByteLen(a + b) == ByteLen(a) + ByteLen(b)
  {
    EncodeAppend(a, b);
    ByteLenEncode(a + b);
    ByteLenEncode(a);
    ByteLenEncode(b);
  }

  /** Every byte of ASCII text is its character. */
  lemma {:induction false} ByteLenAscii(s: string)
    requires forall i :: 0 <= i < |s| ==> (s[i] as int) < 0x80
    ensures ByteLen(s) == |s|
  {
    if s != [] {
      ByteLenAscii(s[1..]);
    }
  }

  /** The bytes of ASCII text, one per character. */
  function AsciiBytes(s: string): (r: seq<byte>)
    requires forall i :: 0 <= i < |s| ==> (s[i] as int) < 0x80
    ensures |r| == |s|
  {
    seq(|s|, i requires 0 <= i < |s| => s[i] as int as byte)
  }

  /** On ASCII text, AsciiBytes is the UTF-8 encoding. */
  lemma {:induction false} AsciiBytesEncode(s: string)
    requires forall i :: 0 <= i < |s| ==> (s[i] as int) < 0x80
    ensures AsciiBytes(s) == Encode(s)
  {
    if s != [] {
      AsciiBytesEncode(s[1..]);
      assert AsciiBytes(s) == [s[0] as int as byte] + AsciiBytes(s[1..]);
    }
  }

  /** The byte length of a join with a one-byte separator. */
  lemma JoinSnocByteLen(parts: seq<string>, x: string)
    requires parts != []
    ensures ByteLen(Join(parts + [x], " ")) == ByteLen(Join(parts, " ")) + 1 + ByteLen(x)
  {
    JoinSnoc(parts, x, " ");
    ByteLenAppend(Join(parts, " ") + " ", x);
    ByteLenAppend(Join(parts, " "), " ");
  }

  /** ASCII lower-casing (unicode.ToLower restricted to the letters A to Z). */
  function LowerAscii(c: char): (r: char)
    ensures ('A' <= c <= 'Z') ==> r as int == c as int + 32
    ensures !('A' <= c <= 'Z') ==> r == c
  {
    if 'A' <= c <= 'Z' then (c as int + 32) as char else c
  }

  function ToLower(s: string): (r: string)
    ensures |r| == |s|
    ensures forall i :: 0 <= i < |s| ==> r[i] == LowerAscii(s[i])
  {
    if s == [] then [] else [LowerAscii(s[0])] + ToLower(s[1..])
  }
}
